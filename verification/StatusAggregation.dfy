/**
 Per-agent observations of one VirtualIP and the aggregate computed from them: which backends are
 healthy, which observations are fresh, how many are kept.
 */
module StatusAggregation {
  import opened Prelude
  import opened HealthyBitmap

  datatype Verdict = True | False | Unknown

  /** Times and durations are in nanoseconds. The three verdicts are the agent's own conditions. */
  datatype AgentStatus = AgentStatus(
    agentId: string,
    observedGeneration: int,
    totalBackends: int,
    healthyBackends: int,
    backends: seq<BackendStatus>,
    bitmap: string,
    lastUpdate: Option<int>,
    ttlSeconds: int,
    serving: Option<Verdict>,
    dataPlane: Option<Verdict>,
    route: Option<Verdict>)

  const SECOND := 1_000_000_000
  const DEFAULT_TTL := 120 * SECOND
  const MAX_TTL := 3600 * SECOND
  const EXPIRED_RETENTION := 7 * 24 * 3600 * SECOND
  const MAX_AGENT_STATUSES := 256

  // --- the union of healthy backends ---

  function FromBitmap(backends: seq<Address>, bytes: seq<bv8>): set<Address> {
    set i: nat | i < |backends| && Bit(bytes, i) :: backends[i]
  }

  function DetailsHealthy(details: seq<BackendStatus>): set<Address> {
    set d | d in details && d.healthy :: d.address
  }

  /** The observation has a bitmap that can be decoded. */
  predicate UsesBitmap(s: AgentStatus) { s.bitmap != "" && DecodeHex(s.bitmap).Some? }

  predicate ClaimsAll(backends: seq<Address>, s: AgentStatus) {
    s.totalBackends == |backends| && s.healthyBackends >= |backends|
  }

  /** What one observation adds to the aggregate; the detail list only counts without a readable bitmap. */
  function Contribution(backends: seq<Address>, s: AgentStatus): set<Address> {
    if UsesBitmap(s) then FromBitmap(backends, DecodeHex(s.bitmap).value)
    else
      // Without details, an agent that counts every configured backend as healthy means all of them.
      var all := s.totalBackends == |backends| && s.healthyBackends >= |backends|;
      DetailsHealthy(s.backends) + if all then set a | a in backends else {}
  }

  function Aggregate(backends: seq<Address>, statuses: seq<AgentStatus>): set<Address> {
    if statuses == [] then {}
    else Aggregate(backends, statuses[..|statuses| - 1]) + Contribution(backends, statuses[|statuses| - 1])
  }

  function ClampCount(count: int, total: nat): nat {
    if count < 0 then 0 else if count > total then total else count
  }

  /** The largest count reported by an observation without a readable bitmap, brought into range. */
  function ClaimedCount(backends: seq<Address>, statuses: seq<AgentStatus>): nat {
    if statuses == [] then 0
    else
      var before, last := ClaimedCount(backends, statuses[..|statuses| - 1]), statuses[|statuses| - 1];
      if UsesBitmap(last) then before else Max(before, ClampCount(last.healthyBackends, |backends|))
  }

  /** No such observation counts more, up to the number of backends, and one of them counts as many. */
  lemma {:induction false} ClaimedIsLargest(backends: seq<Address>, statuses: seq<AgentStatus>)
    ensures var claimed := ClaimedCount(backends, statuses);
            && 0 <= claimed <= |backends|
            && (forall o :: o in statuses && !UsesBitmap(o) && claimed < |backends| ==> o.healthyBackends <= claimed)
            && (claimed > 0 ==> exists o :: o in statuses && !UsesBitmap(o) && o.healthyBackends >= claimed)
    decreases |statuses|
  {
    if statuses != [] {
      var init, last := statuses[..|statuses| - 1], statuses[|statuses| - 1];
      assert statuses == init + [last];
      ClaimedIsLargest(backends, init);
    }
  }

  /** The loop over the backends, up to the end of the decoded bytes. */
  method AddSetBits(healthySet: set<Address>, backends: seq<Address>, bytes: seq<bv8>) returns (extended: set<Address>)
    ensures extended == healthySet + FromBitmap(backends, bytes)
  {
    extended := healthySet;
    for i := 0 to |backends|
      invariant extended == healthySet + FromBitmap(backends[..i], bytes)
    {
      if i / 8 >= |bytes| {
        NoBitsBeyond(backends, bytes, i);
        return;
      }
      FromBitmapStep(backends, bytes, i);
      if bytes[i / 8] & Mask(i % 8) != 0 {
        extended := extended + {backends[i]};
      }
    }
    assert backends[..|backends|] == backends;
  }

  method AddHealthyBackendsFromBitmap(healthySet: set<Address>, backends: seq<Address>, bitmap: string)
      returns (extended: set<Address>, ok: bool)
    ensures ok <==> bitmap != "" && DecodeHex(bitmap).Some?
    ensures extended == healthySet + if ok then FromBitmap(backends, DecodeHex(bitmap).value) else {}
  {
    if bitmap == "" {
      return healthySet, false;
    }
    var decoded := DecodeHex(bitmap);
    if decoded.None? {
      return healthySet, false;
    }
    extended := AddSetBits(healthySet, backends, decoded.value);
    ok := true;
  }

  lemma NoBitsBeyond(backends: seq<Address>, bytes: seq<bv8>, i: nat)
    requires i <= |backends| && i / 8 >= |bytes|
    ensures FromBitmap(backends, bytes) == FromBitmap(backends[..i], bytes)
  {
    forall a | a in FromBitmap(backends, bytes) ensures a in FromBitmap(backends[..i], bytes) {
      var j: nat :| j < |backends| && Bit(bytes, j) && backends[j] == a;
      assert j < i;
      assert backends[..i][j] == a;
    }
    forall a | a in FromBitmap(backends[..i], bytes) ensures a in FromBitmap(backends, bytes) {
      var j: nat :| j < i && Bit(bytes, j) && backends[..i][j] == a;
      assert backends[j] == a;
    }
  }

  lemma FromBitmapStep(backends: seq<Address>, bytes: seq<bv8>, i: nat)
    requires i < |backends|
    ensures FromBitmap(backends[..i + 1], bytes) == FromBitmap(backends[..i], bytes) + if Bit(bytes, i) then {backends[i]} else {}
  {
    var longer, shorter := backends[..i + 1], backends[..i];
    forall a | a in FromBitmap(longer, bytes)
      ensures a in FromBitmap(shorter, bytes) + if Bit(bytes, i) then {backends[i]} else {}
    {
      var j: nat :| j < |longer| && Bit(bytes, j) && longer[j] == a;
      if j < i {
        assert shorter[j] == a;
      }
    }
    forall a | a in FromBitmap(shorter, bytes) ensures a in FromBitmap(longer, bytes) {
      var j: nat :| j < |shorter| && Bit(bytes, j) && shorter[j] == a;
      assert longer[j] == a;
    }
    if Bit(bytes, i) {
      assert longer[i] == backends[i];
    }
  }

  lemma AggregateStep(backends: seq<Address>, statuses: seq<AgentStatus>, i: nat)
    requires i < |statuses|
    ensures Aggregate(backends, statuses[..i + 1]) == Aggregate(backends, statuses[..i]) + Contribution(backends, statuses[i])
    ensures ClaimedCount(backends, statuses[..i + 1])
            == if UsesBitmap(statuses[i]) then ClaimedCount(backends, statuses[..i])
               else Max(ClaimedCount(backends, statuses[..i]), ClampCount(statuses[i].healthyBackends, |backends|))
  {
    assert statuses[..i + 1][..i] == statuses[..i];
  }

  /** The two inner loops for an observation without a readable bitmap. */
  method AddFromDetails(healthySet: set<Address>, backends: seq<Address>, s: AgentStatus) returns (extended: set<Address>)
    requires !UsesBitmap(s)
    ensures extended == healthySet + Contribution(backends, s)
  {
    extended := healthySet;
    for i := 0 to |s.backends|
      invariant extended == healthySet + DetailsHealthy(s.backends[..i])
    {
      assert s.backends[..i + 1] == s.backends[..i] + [s.backends[i]];
      if s.backends[i].healthy {
        extended := extended + {s.backends[i].address};
      }
    }
    assert s.backends[..|s.backends|] == s.backends;
    if ClaimsAll(backends, s) {
      ghost var before := extended;
      for i := 0 to |backends|
        invariant extended == before + set a | a in backends[..i]
      {
        extended := extended + {backends[i]};
      }
    }
  }

  method AggregateHealthyBackends(backends: seq<Address>, statuses: seq<AgentStatus>)
      returns (healthySet: set<Address>, count: nat)
    ensures healthySet == Aggregate(backends, statuses)
    ensures count == Max(ClaimedCount(backends, statuses), |healthySet|)
  {
    healthySet, count := {}, 0;
    for i := 0 to |statuses|
      invariant healthySet == Aggregate(backends, statuses[..i])
      invariant count == ClaimedCount(backends, statuses[..i])
    {
      AggregateStep(backends, statuses, i);
      var fromBitmap;
      healthySet, fromBitmap := AddHealthyBackendsFromBitmap(healthySet, backends, statuses[i].bitmap);
      if fromBitmap {
        continue;
      }
      healthySet := AddFromDetails(healthySet, backends, statuses[i]);
      var claimed := ClampCount(statuses[i].healthyBackends, |backends|);
      if claimed > count {
        count := claimed;
      }
    }
    assert statuses[..|statuses|] == statuses;
    if |healthySet| > count {
      count := |healthySet|;
    }
  }

  // --- reports ---

  /** What UpdateVIPStatus writes for an agent that sees the given addresses healthy. */
  ghost predicate Reports(s: AgentStatus, backends: seq<Address>, healthy: set<Address>) {
    && s.totalBackends == |backends|
    && s.healthyBackends == |Configured(backends, healthy)|
    && ReportsBits(s.bitmap, backends, healthy)
    && (forall d :: d in s.backends && d.healthy ==> d.address in Configured(backends, healthy))
  }

  method BuildReport(agentId: string, generation: int, backends: seq<Address>, healthy: set<Address>, now: int, ttlSeconds: int,
                     serving: Option<Verdict>, dataPlane: Option<Verdict>, route: Option<Verdict>) returns (s: AgentStatus)
    ensures Reports(s, backends, healthy) && |s.backends| <= MAX_STATUS_BACKENDS
    ensures s == AgentStatus(agentId, generation, s.totalBackends, s.healthyBackends, s.backends, s.bitmap, Some(now),
                             ttlSeconds, serving, dataPlane, route)
  {
    var count := CountConfiguredHealthy(backends, healthy);
    var details := BuildBackendStatuses(backends, healthy);
    var bitmap := BuildHealthyBackendBitmap(backends, healthy);
    s := AgentStatus(agentId, generation, |backends|, count, details, bitmap, Some(now), ttlSeconds, serving, dataPlane, route);
  }

  /** A report carries exactly the configured healthy addresses, however its details were cut. */
  lemma ReportContribution(s: AgentStatus, backends: seq<Address>, healthy: set<Address>)
    requires Reports(s, backends, healthy)
    ensures Contribution(backends, s) == Configured(backends, healthy)
    ensures !UsesBitmap(s) ==> s.healthyBackends == 0
  {
    if UsesBitmap(s) {
      var bytes := DecodeHex(s.bitmap).value;
      forall a | a in Configured(backends, healthy) ensures a in FromBitmap(backends, bytes) {
        var i: nat :| i < |backends| && backends[i] == a;
        assert Bit(bytes, i);
      }
    } else if ClaimsAll(backends, s) {
      assert backends == [];
    }
  }

  predicate SeenBySome(seen: seq<set<Address>>, a: Address) { exists i :: 0 <= i < |seen| && a in seen[i] }

  /** All configured addresses that some agent sees healthy. */
  function Union(backends: seq<Address>, seen: seq<set<Address>>): set<Address> {
    set a | a in backends && SeenBySome(seen, a)
  }

  lemma UnionStep(backends: seq<Address>, seen: seq<set<Address>>)
    requires seen != []
    ensures Union(backends, seen) == Union(backends, seen[..|seen| - 1]) + Configured(backends, seen[|seen| - 1])
  {
    var n := |seen| - 1;
    forall a ensures SeenBySome(seen, a) <==> SeenBySome(seen[..n], a) || a in seen[n] {
      if SeenBySome(seen, a) && a !in seen[n] {
        var i :| 0 <= i < |seen| && a in seen[i];
        assert a in seen[..n][i];
      }
    }
  }

  ghost predicate AllReport(statuses: seq<AgentStatus>, backends: seq<Address>, seen: seq<set<Address>>) {
    |seen| == |statuses| && forall i :: 0 <= i < |statuses| ==> Reports(statuses[i], backends, seen[i])
  }

  /** Decoding and aggregating undoes encoding: the union of the agents' addresses, counted exactly. */
  lemma {:induction false} UnionOfReports(backends: seq<Address>, statuses: seq<AgentStatus>, seen: seq<set<Address>>)
    requires AllReport(statuses, backends, seen)
    ensures Aggregate(backends, statuses) == Union(backends, seen)
    ensures ClaimedCount(backends, statuses) == 0
    decreases |statuses|
  {
    if statuses != [] {
      var n := |statuses| - 1;
      UnionOfReports(backends, statuses[..n], seen[..n]);
      ReportContribution(statuses[n], backends, seen[n]);
      UnionStep(backends, seen);
    }
  }
}
