/** The stored list of per-agent observations: clamping, keeping the newest, replacing, splitting by age. */
module AgentStatusList {
  import opened Prelude
  import opened HealthyBitmap
  import opened StringOrder
  import opened StatusAggregation

  // --- the stable sort of capAgentStatuses ---

  /** A missing update time counts as the zero time. */
  function UpdateTime(s: AgentStatus): int { if s.lastUpdate.Some? then s.lastUpdate.value else 0 }

  predicate Before(a: AgentStatus, b: AgentStatus) {
    UpdateTime(a) > UpdateTime(b) || (UpdateTime(a) == UpdateTime(b) && Less(a.agentId, b.agentId))
  }

  lemma BeforeIsAWeakOrder(a: AgentStatus, b: AgentStatus, c: AgentStatus)
    ensures !(Before(a, b) && Before(b, a))
    ensures !Before(b, a) && !Before(c, b) ==> !Before(c, a)
  {
    LessIsTotal(a.agentId, b.agentId);
    LessIsTotal(b.agentId, c.agentId);
    LessIsTotal(a.agentId, c.agentId);
    if Less(c.agentId, a.agentId) && Less(a.agentId, b.agentId) {
      LessIsTransitive(c.agentId, a.agentId, b.agentId);
    }
  }

  /** After every element that need not come later. */
  function InsertStable(sorted: seq<AgentStatus>, x: AgentStatus): seq<AgentStatus> {
    if sorted == [] then [x]
    else
      var last := sorted[|sorted| - 1];
      if Before(x, last) then InsertStable(sorted[..|sorted| - 1], x) + [last] else sorted + [x]
  }

  /** sort.SliceStable with that order. */
  function Sorted(s: seq<AgentStatus>): seq<AgentStatus> {
    if s == [] then [] else InsertStable(Sorted(s[..|s| - 1]), s[|s| - 1])
  }

  ghost predicate Ordered(s: seq<AgentStatus>) {
    forall i, j :: 0 <= i < j < |s| ==> !Before(s[j], s[i])
  }

  /** The observations that rank the same as `x`, in their order. */
  function Peers(s: seq<AgentStatus>, x: AgentStatus): seq<AgentStatus> {
    if s == [] then []
    else
      var last := s[|s| - 1];
      Peers(s[..|s| - 1], x) + if !Before(last, x) && !Before(x, last) then [last] else []
  }

  lemma {:induction false} InsertAddsOne(s: seq<AgentStatus>, x: AgentStatus)
    ensures multiset(InsertStable(s, x)) == multiset(s) + multiset{x}
    decreases |s|
  {
    if s != [] {
      InsertAddsOne(s[..|s| - 1], x);
      assert s == s[..|s| - 1] + [s[|s| - 1]];
    }
  }

  lemma {:induction false} InsertIsOrdered(s: seq<AgentStatus>, x: AgentStatus)
    requires Ordered(s)
    ensures Ordered(InsertStable(s, x))
    decreases |s|
  {
    if s != [] {
      var n := |s| - 1;
      var init, last := s[..n], s[n];
      if Before(x, last) {
        InsertIsOrdered(init, x);
        InsertAddsOne(init, x);
        BeforeIsAWeakOrder(x, last, last);
        var r := InsertStable(init, x);
        forall i | 0 <= i < |r| ensures !Before(last, r[i]) {
          assert r[i] in multiset(init) + multiset{x};
        }
      } else {
        forall i | 0 <= i < |s| ensures !Before(x, s[i]) {
          BeforeIsAWeakOrder(s[i], last, x);
        }
      }
    }
  }

  lemma {:induction false} InsertKeepsPeers(s: seq<AgentStatus>, x: AgentStatus, y: AgentStatus)
    requires Ordered(s)
    ensures Peers(InsertStable(s, x), y) == Peers(s + [x], y)
    decreases |s|
  {
    assert (s + [x])[..|s|] == s;
    if s != [] {
      var n := |s| - 1;
      var init, last := s[..n], s[n];
      if Before(x, last) {
        InsertKeepsPeers(init, x, y);
        assert (init + [x])[..n] == init;
        var r := InsertStable(init, x);
        assert (r + [last])[..|r|] == r;
        // x and last rank differently, so at most one of them is a peer of y.
        BeforeIsAWeakOrder(x, y, last);
        BeforeIsAWeakOrder(last, y, x);
      }
    }
  }

  /** A permutation, in order, that leaves equals where they were: this determines a stable sort. */
  lemma {:induction false} SortedIsStableSort(s: seq<AgentStatus>, y: AgentStatus)
    ensures Ordered(Sorted(s)) && multiset(Sorted(s)) == multiset(s) && |Sorted(s)| == |s|
    ensures Peers(Sorted(s), y) == Peers(s, y)
    decreases |s|
  {
    if s != [] {
      var init, last := s[..|s| - 1], s[|s| - 1];
      assert s == init + [last];
      SortedIsStableSort(init, y);
      InsertIsOrdered(Sorted(init), last);
      InsertAddsOne(Sorted(init), last);
      InsertKeepsPeers(Sorted(init), last, y);
      assert (Sorted(init) + [last])[..|init|] == Sorted(init);
      assert |multiset(Sorted(s))| == |s|;
    }
  }

  // --- keeping the newest ---

  function Capped(s: seq<AgentStatus>): seq<AgentStatus> {
    if |s| <= MAX_AGENT_STATUSES then s else SortedIsStableSort(s, s[0]); Sorted(s)[..MAX_AGENT_STATUSES]
  }

  /** `a` was updated before `b`, or at the same time by an agent whose ID is not smaller; no update time is time zero. */
  predicate NoNewer(a: AgentStatus, b: AgentStatus) {
    var at, bt := if a.lastUpdate == None then 0 else a.lastUpdate.value, if b.lastUpdate == None then 0 else b.lastUpdate.value;
    at < bt || (at == bt && !Less(a.agentId, b.agentId))
  }

  /** The 256 most recently updated observations stay; among equally recent ones the agent's ID decides. */
  lemma CapKeepsNewest(s: seq<AgentStatus>) returns (dropped: seq<AgentStatus>)
    ensures |Capped(s)| <= MAX_AGENT_STATUSES && (dropped != [] ==> |Capped(s)| == MAX_AGENT_STATUSES)
    ensures multiset(Capped(s)) + multiset(dropped) == multiset(s)
    ensures forall kept, lost :: kept in Capped(s) && lost in dropped ==> NoNewer(lost, kept)
  {
    if |s| <= MAX_AGENT_STATUSES {
      return [];
    }
    SortedIsStableSort(s, s[0]);
    var r := Sorted(s);
    dropped := r[MAX_AGENT_STATUSES..];
    assert r == Capped(s) + dropped;
  }

  // --- SanitizeAgentStatuses ---

  function SanitizeTTL(seconds: int): int {
    if seconds <= 0 then 0 else if seconds > MAX_TTL / SECOND then MAX_TTL / SECOND else seconds
  }

  function SanitizeBackends(details: seq<BackendStatus>): seq<BackendStatus> {
    if |details| <= MAX_STATUS_BACKENDS then details else details[..MAX_STATUS_BACKENDS]
  }

  function Clamp(s: AgentStatus): AgentStatus {
    s.(ttlSeconds := SanitizeTTL(s.ttlSeconds), backends := SanitizeBackends(s.backends))
  }

  function Distance(a: int, b: int): nat { if a < b then b - a else a - b }

  /** The time to live moves to the nearest allowed value, an hour at most, and of the backends the first 1024 stay. */
  lemma ClampMeans(s: AgentStatus, allowed: int)
    requires 0 <= allowed <= 3600
    ensures var c := Clamp(s);
            && 0 <= c.ttlSeconds <= 3600 && Distance(s.ttlSeconds, c.ttlSeconds) <= Distance(s.ttlSeconds, allowed)
            && c.backends <= s.backends && |c.backends| <= 1024 && (|c.backends| < 1024 ==> c.backends == s.backends)
            && c == s.(ttlSeconds := c.ttlSeconds, backends := c.backends)
  {
  }

  function ClampAll(s: seq<AgentStatus>): (r: seq<AgentStatus>)
    ensures |r| == |s| && forall i :: 0 <= i < |s| ==> r[i] == Clamp(s[i])
  {
    seq(|s|, i requires 0 <= i < |s| => Clamp(s[i]))
  }

  /** The loop copies the list only when the first observation changes, and yet clamps every one. */
  method SanitizeAgentStatuses(statuses: seq<AgentStatus>) returns (r: seq<AgentStatus>)
    ensures r == Capped(ClampAll(statuses))
  {
    var out: Option<seq<AgentStatus>> := None;
    for i := 0 to |statuses|
      invariant out.Some? ==> |out.value| == i && forall j :: 0 <= j < i ==> out.value[j] == Clamp(statuses[j])
      invariant out.None? ==> forall j :: 0 <= j < i ==> statuses[j] == Clamp(statuses[j])
    {
      var status := statuses[i];
      var nextTTL, nextBackends := SanitizeTTL(status.ttlSeconds), SanitizeBackends(status.backends);
      if nextTTL == status.ttlSeconds && |nextBackends| == |status.backends| {
        assert Clamp(status) == status;
        if out.Some? {
          out := Some(out.value + [status]);
        }
        continue;
      }
      if out.None? {
        out := Some(statuses[..i]);
      }
      out := Some(out.value + [status.(ttlSeconds := nextTTL, backends := nextBackends)]);
    }
    if out.None? {
      out := Some(statuses);
    }
    assert out.value == ClampAll(statuses);
    r := Capped(out.value);
  }

  lemma SanitizeIsIdempotent(s: seq<AgentStatus>)
    ensures Capped(ClampAll(Capped(ClampAll(s)))) == Capped(ClampAll(s))
  {
    var once := Capped(ClampAll(s));
    var dropped := CapKeepsNewest(ClampAll(s));
    forall i | 0 <= i < |once| ensures Clamp(once[i]) == once[i] {
      assert once[i] in multiset(once) + multiset(dropped);
      assert once[i] in ClampAll(s);
    }
    assert ClampAll(once) == once;
  }

  // --- upsertAgentStatus ---

  ghost predicate UniqueIds(s: seq<AgentStatus>) {
    forall i, j :: 0 <= i < j < |s| ==> s[i].agentId != s[j].agentId
  }

  /** Observations of other generations go, except that the agent's own place is taken over in any case. */
  function Merged(s: seq<AgentStatus>, next: AgentStatus, generation: int): seq<AgentStatus> {
    if s == [] then []
    else
      var last := s[|s| - 1];
      Merged(s[..|s| - 1], next, generation)
      + if last.agentId == next.agentId then [next] else if last.observedGeneration == generation then [last] else []
  }

  function Upserted(s: seq<AgentStatus>, next: AgentStatus, generation: int): seq<AgentStatus> {
    Merged(s, next, generation) + if Knows(s, next.agentId) then [] else [next]
  }

  predicate Knows(s: seq<AgentStatus>, id: string) { exists o :: o in s && o.agentId == id }

  lemma MergedStep(s: seq<AgentStatus>, next: AgentStatus, generation: int, i: nat)
    requires i < |s|
    ensures Merged(s[..i + 1], next, generation)
            == Merged(s[..i], next, generation)
               + if s[i].agentId == next.agentId then [next] else if s[i].observedGeneration == generation then [s[i]] else []
    ensures Knows(s[..i + 1], next.agentId) <==> Knows(s[..i], next.agentId) || s[i].agentId == next.agentId
  {
    assert s[..i + 1] == s[..i] + [s[i]] && s[..i + 1][..i] == s[..i];
  }

  method UpsertAgentStatus(statuses: seq<AgentStatus>, next: AgentStatus, generation: int) returns (out: seq<AgentStatus>)
    ensures out == Upserted(statuses, next, generation)
  {
    out := [];
    var replaced := false;
    for i := 0 to |statuses|
      invariant out == Merged(statuses[..i], next, generation)
      invariant replaced <==> Knows(statuses[..i], next.agentId)
    {
      var status := statuses[i];
      MergedStep(statuses, next, generation, i);
      if status.agentId == next.agentId {
        out := out + [next];
        replaced := true;
        continue;
      }
      if status.observedGeneration == generation {
        out := out + [status];
      }
    }
    assert statuses[..|statuses|] == statuses;
    if !replaced {
      out := out + [next];
    }
  }

  lemma {:induction false} MergedContents(s: seq<AgentStatus>, next: AgentStatus, generation: int)
    ensures forall o :: o in Merged(s, next, generation) <==>
                        || (o in s && o.agentId != next.agentId && o.observedGeneration == generation)
                        || (o == next && exists p :: p in s && p.agentId == next.agentId)
    ensures UniqueIds(s) ==> UniqueIds(Merged(s, next, generation))
    decreases |s|
  {
    if s != [] {
      var init, last := s[..|s| - 1], s[|s| - 1];
      assert s == init + [last];
      MergedContents(init, next, generation);
      if UniqueIds(s) {
        assert forall p :: p in init ==> p.agentId != last.agentId;
      }
    }
  }

  /** The new observation replaces every older one of the same agent; the rest of the generation stays; IDs stay unique. */
  lemma UpsertContents(s: seq<AgentStatus>, next: AgentStatus, generation: int)
    ensures forall o :: o in Upserted(s, next, generation) <==>
                        o == next || (o in s && o.agentId != next.agentId && o.observedGeneration == generation)
    ensures UniqueIds(s) ==> UniqueIds(Upserted(s, next, generation))
  {
    MergedContents(s, next, generation);
  }

  // --- splitAgentStatuses ---

  function NormalizeTTL(ttl: int): int {
    if ttl <= 0 then DEFAULT_TTL else if ttl > MAX_TTL then MAX_TTL else ttl
  }

  function TTLOf(s: AgentStatus, fallback: int): int {
    if s.ttlSeconds > 0 then
      if s.ttlSeconds > MAX_TTL / SECOND then MAX_TTL else NormalizeTTL(s.ttlSeconds * SECOND)
    else NormalizeTTL(fallback)
  }

  predicate ExpiredAfter(s: AgentStatus, now: int, ttl: int) {
    s.lastUpdate.None? || now - s.lastUpdate.value > ttl
  }

  datatype Age = Fresh | Expired | Gone

  /** By the time since the last update: fresh up to the agent's own time to live, then expired for a week. */
  function AgeOf(s: AgentStatus, generation: int, now: int, ttl: int): Age {
    if s.observedGeneration != generation || s.lastUpdate.None? then Gone
    else
      var since := now - s.lastUpdate.value;
      if since <= TTLOf(s, ttl) then Fresh else if since <= EXPIRED_RETENTION then Expired else Gone
  }

  function OfAge(s: seq<AgentStatus>, age: Age, generation: int, now: int, ttl: int): seq<AgentStatus> {
    if s == [] then []
    else
      var last := s[|s| - 1];
      OfAge(s[..|s| - 1], age, generation, now, ttl) + if AgeOf(last, generation, now, ttl) == age then [last] else []
  }

  /** How long an observation counts: as long as its agent says, else as long as asked, else two minutes; never above an hour. */
  function Lifetime(s: AgentStatus, ttl: int): int {
    var asked := if s.ttlSeconds > 0 then s.ttlSeconds * SECOND else if ttl > 0 then ttl else 120 * SECOND;
    if asked < 3600 * SECOND then asked else 3600 * SECOND
  }

  /** An observation of the generation is fresh for its lifetime and is then kept as expired until it is a week old. */
  lemma AgeByLifetime(s: AgentStatus, generation: int, now: int, ttl: int)
    ensures AgeOf(s, generation, now, ttl) == Fresh <==>
              s.observedGeneration == generation && s.lastUpdate.Some? && now <= s.lastUpdate.value + Lifetime(s, ttl)
    ensures AgeOf(s, generation, now, ttl) == Expired <==>
              && s.observedGeneration == generation && s.lastUpdate.Some?
              && s.lastUpdate.value + Lifetime(s, ttl) < now <= s.lastUpdate.value + 7 * 24 * 3600 * SECOND
  {
  }

  lemma {:induction false} OfAgeMembers(s: seq<AgentStatus>, age: Age, generation: int, now: int, ttl: int)
    ensures forall o :: o in OfAge(s, age, generation, now, ttl) <==> o in s && AgeOf(o, generation, now, ttl) == age
    decreases |s|
  {
    if s != [] {
      OfAgeMembers(s[..|s| - 1], age, generation, now, ttl);
      assert s == s[..|s| - 1] + [s[|s| - 1]];
    }
  }

  method SplitAgentStatuses(statuses: seq<AgentStatus>, generation: int, now: int, ttl: int)
      returns (live: seq<AgentStatus>, expired: seq<AgentStatus>)
    ensures live == OfAge(statuses, Fresh, generation, now, ttl)
    ensures expired == OfAge(statuses, Expired, generation, now, ttl)
  {
    var fallback := NormalizeTTL(ttl);
    live, expired := [], [];
    for i := 0 to |statuses|
      invariant live == OfAge(statuses[..i], Fresh, generation, now, ttl)
      invariant expired == OfAge(statuses[..i], Expired, generation, now, ttl)
    {
      var status := statuses[i];
      assert statuses[..i + 1][..i] == statuses[..i];
      if status.observedGeneration != generation {
        continue;
      }
      if ExpiredAfter(status, now, TTLOf(status, fallback)) {
        if ExpiredAfter(status, now, EXPIRED_RETENTION) {
          continue;
        }
        expired := expired + [status];
        continue;
      }
      live := live + [status];
    }
    assert statuses[..|statuses|] == statuses;
  }
}
