/** The difference between the agent's configuration and a new one, as lists of VIPs and backends. */
module ConfigDiff {
  import opened Prelude
  import opened JsonValues

  /** `rest` stands for the fields that are never compared: timestamps, and for a VIP its encapsulation and DSCP. */
  datatype Backend = Backend(id: string, vipId: string, ip: string, weight: int, rest: string)

  datatype HealthCheck = HealthCheck(
    kind: string, interval: int, timeout: int, rise: int, fall: int, config: Option<map<string, Value>>, rest: string)

  datatype Vip = Vip(id: string, vip: string, port: int, protocol: string, lbMethod: string, rest: string)

  datatype VipConfig = VipConfig(vip: Vip, healthCheck: Option<HealthCheck>, backends: seq<Backend>)

  type Config = seq<VipConfig>

  // --- look-up maps ---

  /** Later entries win. */
  function BackendMap(bs: seq<Backend>): map<string, Backend> {
    if bs == [] then map[] else BackendMap(bs[..|bs| - 1])[bs[|bs| - 1].id := bs[|bs| - 1]]
  }

  function VipMap(vs: seq<VipConfig>): map<string, VipConfig> {
    if vs == [] then map[] else VipMap(vs[..|vs| - 1])[vs[|vs| - 1].vip.id := vs[|vs| - 1]]
  }

  lemma {:induction false} BackendMapEntries(bs: seq<Backend>)
    ensures forall id :: id in BackendMap(bs) ==> BackendMap(bs)[id] in bs && BackendMap(bs)[id].id == id
    ensures forall i :: 0 <= i < |bs| ==> bs[i].id in BackendMap(bs)
    decreases |bs|
  {
    if bs != [] {
      BackendMapEntries(bs[..|bs| - 1]);
      assert bs == bs[..|bs| - 1] + [bs[|bs| - 1]];
    }
  }

  lemma {:induction false} VipMapEntries(vs: seq<VipConfig>)
    ensures forall id :: id in VipMap(vs) ==> VipMap(vs)[id] in vs && VipMap(vs)[id].vip.id == id
    ensures forall i :: 0 <= i < |vs| ==> vs[i].vip.id in VipMap(vs)
    decreases |vs|
  {
    if vs != [] {
      VipMapEntries(vs[..|vs| - 1]);
      assert vs == vs[..|vs| - 1] + [vs[|vs| - 1]];
    }
  }

  function IdsOf(bs: seq<Backend>): (ids: seq<string>)
    ensures |ids| == |bs| && forall i :: 0 <= i < |bs| ==> ids[i] == bs[i].id
  {
    seq(|bs|, i requires 0 <= i < |bs| => bs[i].id)
  }

  /** The backend IDs of every VIP, in order. */
  function BackendIdMap(c: Config): map<string, seq<string>> {
    map id | id in VipMap(c) :: IdsOf(VipMap(c)[id].backends)
  }

  function AllBackends(c: Config): (bs: seq<Backend>)
    ensures forall b :: b in bs <==> exists v :: v in c && b in v.backends
  {
    if c == [] then []
    else
      var last := c[|c| - 1];
      assert c == c[..|c| - 1] + [last];
      AllBackends(c[..|c| - 1]) + last.backends
  }

  ghost predicate UniqueBackends(bs: seq<Backend>) {
    forall i, j :: 0 <= i < j < |bs| ==> bs[i].id != bs[j].id
  }

  ghost predicate UniqueVips(c: Config) {
    forall i, j :: 0 <= i < j < |c| ==> c[i].vip.id != c[j].vip.id
  }

  ghost predicate Unique(c: Config) { UniqueVips(c) && UniqueBackends(AllBackends(c)) }

  lemma MapOfUnique(bs: seq<Backend>, b: Backend)
    requires UniqueBackends(bs) && b in bs
    ensures b.id in BackendMap(bs) && BackendMap(bs)[b.id] == b
  {
    BackendMapEntries(bs);
  }

  lemma VipMapOfUnique(c: Config, v: VipConfig)
    requires UniqueVips(c) && v in c
    ensures v.vip.id in VipMap(c) && VipMap(c)[v.vip.id] == v
  {
    VipMapEntries(c);
  }

  lemma {:induction false} SizeOfUnique(bs: seq<Backend>)
    requires UniqueBackends(bs)
    ensures |BackendMap(bs)| == |bs|
    decreases |bs|
  {
    if bs != [] {
      var init, last := bs[..|bs| - 1], bs[|bs| - 1];
      SizeOfUnique(init);
      BackendMapEntries(init);
      assert last.id !in BackendMap(init);
      assert BackendMap(bs).Keys == BackendMap(init).Keys + {last.id};
    }
  }

  /** One VIP's backends in a unique configuration are unique. */
  lemma {:induction false} UniqueWithinVip(c: Config, v: VipConfig)
    requires UniqueBackends(AllBackends(c)) && v in c
    ensures UniqueBackends(v.backends)
    decreases |c|
  {
    var init, last := c[..|c| - 1], c[|c| - 1];
    var before, all := AllBackends(init), AllBackends(c);
    assert all == before + last.backends;
    if v == last {
      assert forall i :: 0 <= i < |v.backends| ==> v.backends[i] == all[|before| + i];
    } else {
      assert forall i :: 0 <= i < |before| ==> before[i] == all[i];
      UniqueWithinVip(init, v);
    }
  }

  // --- comparisons ---

  predicate BackendEqual(a: Backend, b: Backend) {
    a.id == b.id && a.vipId == b.vipId && a.ip == b.ip && a.weight == b.weight
  }

  predicate VipEqual(a: Vip, b: Vip) {
    a.vip == b.vip && a.port == b.port && a.protocol == b.protocol && a.lbMethod == b.lbMethod
  }

  /** A nil map has length zero and no keys. */
  function Options(h: HealthCheck): map<string, Value> { if h.config.Some? then h.config.value else map[] }

  predicate OptionsEqual(a: map<string, Value>, b: map<string, Value>) {
    |a| == |b| && forall k :: k in a ==> k in b && InterfaceEqual(a[k], b[k])
  }

  predicate HealthCheckEqual(a: Option<HealthCheck>, b: Option<HealthCheck>) {
    if a.None? || b.None? then a.None? && b.None?
    else
      && a.value.kind == b.value.kind && a.value.interval == b.value.interval && a.value.timeout == b.value.timeout
      && a.value.rise == b.value.rise && a.value.fall == b.value.fall
      && OptionsEqual(Options(a.value), Options(b.value))
  }

  /** Every listed backend is in the map and equal there. */
  predicate Covers(m: map<string, Backend>, bs: seq<Backend>) {
    forall i :: 0 <= i < |bs| ==> bs[i].id in m && BackendEqual(m[bs[i].id], bs[i])
  }

  /** What vipConfigEqual computes. */
  predicate ConfigEqual(a: VipConfig, b: VipConfig) {
    && VipEqual(a.vip, b.vip) && HealthCheckEqual(a.healthCheck, b.healthCheck)
    && |a.backends| == |b.backends|
    && Covers(BackendMap(a.backends), b.backends)
  }

  method IndexBackends(bs: seq<Backend>) returns (m: map<string, Backend>)
    ensures m == BackendMap(bs)
  {
    m := map[];
    for i := 0 to |bs|
      invariant m == BackendMap(bs[..i])
    {
      assert bs[..i + 1][..i] == bs[..i];
      m := m[bs[i].id := bs[i]];
    }
    assert bs[..|bs|] == bs;
  }

  method AllFound(m: map<string, Backend>, bs: seq<Backend>) returns (found: bool)
    ensures found == Covers(m, bs)
  {
    for i := 0 to |bs|
      invariant Covers(m, bs[..i])
    {
      if bs[i].id !in m || !BackendEqual(m[bs[i].id], bs[i]) {
        return false;
      }
    }
    return true;
  }

  /** The two loops of vipConfigEqual. */
  method VipConfigEqual(a: VipConfig, b: VipConfig) returns (equal: bool)
    ensures equal == ConfigEqual(a, b)
  {
    if !VipEqual(a.vip, b.vip) || !HealthCheckEqual(a.healthCheck, b.healthCheck) || |a.backends| != |b.backends| {
      return false;
    }
    var byId := IndexBackends(a.backends);
    equal := AllFound(byId, b.backends);
  }

  // --- what is compared ---

  function SeenBackend(b: Backend): Backend { b.(rest := "") }

  function SeenBackends(m: map<string, Backend>): map<string, Backend> { map id | id in m :: SeenBackend(m[id]) }

  function SeenVip(v: Vip): Vip { v.(id := "", rest := "") }

  function SeenHealth(h: Option<HealthCheck>): Option<HealthCheck> {
    if h.None? then None else Some(h.value.(config := Some(Options(h.value)), rest := ""))
  }

  /** The compared part of a VIP configuration; the order of its backends is not part of it. */
  datatype Seen = Seen(vip: Vip, healthCheck: Option<HealthCheck>, backends: map<string, Backend>)

  function SeenConfig(c: VipConfig): Seen {
    Seen(SeenVip(c.vip), SeenHealth(c.healthCheck), SeenBackends(BackendMap(c.backends)))
  }

  predicate PlainHealth(h: Option<HealthCheck>) {
    h.Some? ==> forall k :: k in Options(h.value) ==> Plain(Options(h.value)[k])
  }

  lemma OptionsEqualIff(a: map<string, Value>, b: map<string, Value>)
    ensures OptionsEqual(a, b) <==> a == b && forall k :: k in a ==> Plain(a[k])
  {
    forall k | k in a && k in b ensures InterfaceEqual(a[k], b[k]) <==> a[k] == b[k] && Plain(a[k]) {
      InterfaceEqualIff(a[k], b[k]);
    }
    if OptionsEqual(a, b) {
      SameKeys(a, b);
      assert a == b;
    }
  }

  lemma SeenBackendsIff(p: map<string, Backend>, q: map<string, Backend>)
    requires forall id :: id in p ==> p[id].id == id
    requires forall id :: id in q ==> q[id].id == id
    ensures SeenBackends(p) == SeenBackends(q) <==> p.Keys == q.Keys && forall id :: id in q ==> id in p && BackendEqual(p[id], q[id])
  {
    if SeenBackends(p) == SeenBackends(q) {
      assert p.Keys == SeenBackends(p).Keys == SeenBackends(q).Keys == q.Keys;
      forall id | id in q ensures BackendEqual(p[id], q[id]) {
        assert SeenBackends(p)[id] == SeenBackends(q)[id];
      }
    }
  }

  lemma CoversIff(m: map<string, Backend>, bs: seq<Backend>)
    requires UniqueBackends(bs)
    ensures Covers(m, bs) <==> forall id :: id in BackendMap(bs) ==> id in m && BackendEqual(m[id], BackendMap(bs)[id])
  {
    BackendMapEntries(bs);
    forall i | 0 <= i < |bs| ensures BackendMap(bs)[bs[i].id] == bs[i] {
      MapOfUnique(bs, bs[i]);
    }
  }

  lemma BackendsEqualIff(a: seq<Backend>, b: seq<Backend>)
    requires UniqueBackends(a) && UniqueBackends(b)
    ensures |a| == |b| && Covers(BackendMap(a), b) <==> SeenBackends(BackendMap(a)) == SeenBackends(BackendMap(b))
  {
    SizeOfUnique(a);
    SizeOfUnique(b);
    CoversIff(BackendMap(a), b);
    BackendMapEntries(a);
    BackendMapEntries(b);
    SeenBackendsIff(BackendMap(a), BackendMap(b));
    if |a| == |b| && Covers(BackendMap(a), b) {
      SameKeys(BackendMap(b), BackendMap(a));
    }
    if BackendMap(a).Keys == BackendMap(b).Keys {
      assert |BackendMap(a).Keys| == |BackendMap(b).Keys|;
    }
  }

  /** The one-sided comparison is equality of the compared parts; options of unlisted types never compare equal. */
  lemma ConfigEqualIff(a: VipConfig, b: VipConfig)
    requires UniqueBackends(a.backends) && UniqueBackends(b.backends)
    ensures ConfigEqual(a, b) <==> SeenConfig(a) == SeenConfig(b) && PlainHealth(a.healthCheck)
  {
    BackendsEqualIff(a.backends, b.backends);
    if a.healthCheck.Some? && b.healthCheck.Some? {
      OptionsEqualIff(Options(a.healthCheck.value), Options(b.healthCheck.value));
    }
  }

  // --- the difference ---

  datatype Diff = Diff(
    addedVips: seq<VipConfig>,
    removedVips: seq<VipConfig>,
    modifiedVips: seq<VipConfig>,
    addedBackends: seq<Backend>,
    removedBackends: seq<Backend>)

  predicate IsEmpty(d: Diff) {
    d.addedVips == [] && d.removedVips == [] && d.modifiedVips == [] && d.addedBackends == [] && d.removedBackends == []
  }

  predicate NoVipChange(d: Diff) { d.addedVips == [] && d.removedVips == [] && d.modifiedVips == [] }

  function Only<T>(m: map<string, T>, ids: set<string>): map<string, T> { map id | id in m && id in ids :: m[id] }

  /** `s` lists the entries of `m` whose keys are in `ids`, each once. */
  ghost predicate ListsVips(s: seq<VipConfig>, m: map<string, VipConfig>, ids: set<string>) {
    UniqueVips(s) && VipMap(s) == Only(m, ids)
  }

  ghost predicate ListsBackends(s: seq<Backend>, m: map<string, Backend>, ids: set<string>) {
    UniqueBackends(s) && BackendMap(s) == Only(m, ids)
  }

  function ModifiedVipIds(was: map<string, VipConfig>, now: map<string, VipConfig>): set<string> {
    set id | id in was && id in now && !ConfigEqual(was[id], now[id])
  }

  function ModifiedBackendIds(was: map<string, Backend>, now: map<string, Backend>): set<string> {
    set id | id in was && id in now && !BackendEqual(was[id], now[id])
  }

  /** What the five lists hold. */
  ghost predicate DiffOf(d: Diff, was: Config, now: Config) {
    var oldVips, newVips, oldBackends, newBackends := VipMap(was), VipMap(now), BackendMap(AllBackends(was)), BackendMap(AllBackends(now));
    && ListsVips(d.addedVips, newVips, newVips.Keys - oldVips.Keys)
    && ListsVips(d.removedVips, oldVips, oldVips.Keys - newVips.Keys)
    && ListsVips(d.modifiedVips, newVips, ModifiedVipIds(oldVips, newVips))
    && ListsBackends(d.addedBackends, newBackends, newBackends.Keys - oldBackends.Keys + ModifiedBackendIds(oldBackends, newBackends))
    && ListsBackends(d.removedBackends, oldBackends, oldBackends.Keys - newBackends.Keys + ModifiedBackendIds(oldBackends, newBackends))
  }

  // --- the loops of ComputeDiff ---

  lemma OnlyGrows<T>(m: map<string, T>, ids: set<string>, id: string)
    requires id in m
    ensures Only(m, ids)[id := m[id]] == Only(m, ids + {id})
  {
  }

  lemma AppendVip(s: seq<VipConfig>, m: map<string, VipConfig>, ids: set<string>, v: VipConfig)
    requires ListsVips(s, m, ids) && v.vip.id !in ids && v.vip.id in m && m[v.vip.id] == v
    ensures ListsVips(s + [v], m, ids + {v.vip.id})
  {
    assert (s + [v])[..|s|] == s;
    OnlyGrows(m, ids, v.vip.id);
    VipMapEntries(s);
  }

  lemma AppendBackend(s: seq<Backend>, m: map<string, Backend>, ids: set<string>, b: Backend)
    requires ListsBackends(s, m, ids) && b.id !in ids && b.id in m && m[b.id] == b
    ensures ListsBackends(s + [b], m, ids + {b.id})
  {
    assert (s + [b])[..|s|] == s;
    OnlyGrows(m, ids, b.id);
    BackendMapEntries(s);
  }

  /** The entries of `m` whose keys are missing in `other`. */
  method MissingVips(m: map<string, VipConfig>, other: map<string, VipConfig>) returns (out: seq<VipConfig>)
    requires forall id :: id in m ==> m[id].vip.id == id
    ensures ListsVips(out, m, m.Keys - other.Keys)
  {
    out := [];
    var todo := m.Keys;
    while todo != {}
      invariant todo <= m.Keys && ListsVips(out, m, m.Keys - other.Keys - todo)
      decreases todo
    {
      var id :| id in todo;
      ghost var before := m.Keys - other.Keys - todo;
      if id !in other {
        AppendVip(out, m, before, m[id]);
        out := out + [m[id]];
      }
      todo := todo - {id};
      assert m.Keys - other.Keys - todo == if id in other then before else before + {id};
    }
    assert m.Keys - other.Keys - todo == m.Keys - other.Keys;
  }

  /** The same for backends, appended to the list of those removed because they changed. */
  method MissingBackends(m: map<string, Backend>, other: map<string, Backend>, start: seq<Backend>, ghost base: set<string>)
      returns (out: seq<Backend>)
    requires forall id :: id in m ==> m[id].id == id
    requires ListsBackends(start, m, base) && base !! m.Keys - other.Keys
    ensures ListsBackends(out, m, m.Keys - other.Keys + base)
  {
    out := start;
    var todo := m.Keys;
    assert m.Keys - other.Keys - todo + base == base;
    while todo != {}
      invariant todo <= m.Keys && ListsBackends(out, m, m.Keys - other.Keys - todo + base)
      decreases todo
    {
      var id :| id in todo;
      ghost var before := m.Keys - other.Keys - todo + base;
      if id !in other {
        AppendBackend(out, m, before, m[id]);
        out := out + [m[id]];
      }
      todo := todo - {id};
      assert m.Keys - other.Keys - todo + base == if id in other then before else before + {id};
    }
    assert m.Keys - other.Keys - todo + base == m.Keys - other.Keys + base;
  }

  /** The loop over the new VIPs. */
  method NewVips(was: map<string, VipConfig>, now: map<string, VipConfig>) returns (added: seq<VipConfig>, modified: seq<VipConfig>)
    requires forall id :: id in now ==> now[id].vip.id == id
    ensures ListsVips(added, now, now.Keys - was.Keys)
    ensures ListsVips(modified, now, ModifiedVipIds(was, now))
  {
    added, modified := [], [];
    var todo := now.Keys;
    while todo != {}
      invariant todo <= now.Keys
      invariant ListsVips(added, now, now.Keys - was.Keys - todo)
      invariant ListsVips(modified, now, ModifiedVipIds(was, now) - todo)
      decreases todo
    {
      var id :| id in todo;
      ghost var a, m := now.Keys - was.Keys - todo, ModifiedVipIds(was, now) - todo;
      todo := todo - {id};
      assert now.Keys - was.Keys - todo == if id in was then a else a + {id};
      if id !in was {
        AppendVip(added, now, a, now[id]);
        added := added + [now[id]];
        assert ModifiedVipIds(was, now) - todo == m;
      } else {
        var equal := VipConfigEqual(was[id], now[id]);
        assert ModifiedVipIds(was, now) - todo == if equal then m else m + {id};
        if !equal {
          AppendVip(modified, now, m, now[id]);
          modified := modified + [now[id]];
        }
      }
    }
    assert now.Keys - was.Keys - todo == now.Keys - was.Keys && ModifiedVipIds(was, now) - todo == ModifiedVipIds(was, now);
  }

  /** The loop over the new backends: a changed one is removed and added. */
  method NewBackends(was: map<string, Backend>, now: map<string, Backend>) returns (added: seq<Backend>, removed: seq<Backend>)
    requires forall id :: id in now ==> now[id].id == id
    requires forall id :: id in was ==> was[id].id == id
    ensures ListsBackends(added, now, now.Keys - was.Keys + ModifiedBackendIds(was, now))
    ensures ListsBackends(removed, was, ModifiedBackendIds(was, now))
  {
    added, removed := [], [];
    var todo := now.Keys;
    ghost var changed := ModifiedBackendIds(was, now);
    while todo != {}
      invariant todo <= now.Keys
      invariant ListsBackends(added, now, now.Keys - was.Keys + changed - todo)
      invariant ListsBackends(removed, was, changed - todo)
      decreases todo
    {
      var id :| id in todo;
      ghost var a, r := now.Keys - was.Keys + changed - todo, changed - todo;
      todo := todo - {id};
      if id !in was {
        AppendBackend(added, now, a, now[id]);
        added := added + [now[id]];
        assert now.Keys - was.Keys + changed - todo == a + {id} && changed - todo == r;
      } else if !BackendEqual(was[id], now[id]) {
        AppendBackend(removed, was, r, was[id]);
        AppendBackend(added, now, a, now[id]);
        removed, added := removed + [was[id]], added + [now[id]];
        assert now.Keys - was.Keys + changed - todo == a + {id} && changed - todo == r + {id};
      } else {
        assert now.Keys - was.Keys + changed - todo == a && changed - todo == r;
      }
    }
    assert now.Keys - was.Keys + changed - todo == now.Keys - was.Keys + changed && changed - todo == changed;
  }

  class Manager {
    var config: Option<Config>
    var vips: map<string, VipConfig>
    var backends: map<string, Backend>
    var vipBackends: map<string, seq<string>>

    ghost function Current(): Config
      reads this
    {
      if config.Some? then config.value else []
    }

    ghost predicate Valid()
      reads this
    {
      && vips == VipMap(Current()) && backends == BackendMap(AllBackends(Current()))
      && vipBackends == BackendIdMap(Current())
    }

    constructor ()
      ensures Valid() && config == None
    {
      config, vips, backends, vipBackends := None, map[], map[], map[];
    }

    /** UpdateConfig with rebuildMaps; the deep copy it stores is the same value. */
    method UpdateConfig(newConfig: Option<Config>)
      modifies this
      ensures Valid() && config == newConfig
    {
      config := newConfig;
      vips, backends, vipBackends := IndexConfig(if newConfig.Some? then newConfig.value else []);
    }

    /** With unique IDs the two maps lead back to the backends of the VIP, in their order. */
    method GetBackendsByVIP(vipId: string) returns (found: seq<Backend>)
      requires Valid()
      ensures vipId !in vips ==> found == []
      ensures vipId in vips && Unique(Current()) ==> found == vips[vipId].backends
    {
      if vipId !in vipBackends {
        return [];
      }
      var ids := vipBackends[vipId];
      ghost var bs, unique := vips[vipId].backends, Unique(Current());
      forall i | 0 <= i < |ids| && unique ensures ids[i] in backends && backends[ids[i]] == bs[i] {
        LookUpFinds(Current(), vipId, i);
      }
      found := LookUp(backends, ids);
      assert unique ==> found == bs;
    }

    /** ComputeDiff; a missing configuration removes everything. */
    method ComputeDiff(newConfig: Option<Config>) returns (d: Diff)
      requires Valid()
      ensures DiffOf(d, Current(), if newConfig.Some? then newConfig.value else [])
    {
      ghost var now := if newConfig.Some? then newConfig.value else [];
      VipMapEntries(Current());
      BackendMapEntries(AllBackends(Current()));
      VipMapEntries(now);
      BackendMapEntries(AllBackends(now));
      var newVips: map<string, VipConfig>, newBackends: map<string, Backend> := map[], map[];
      if newConfig.Some? {
        var ids;
        newVips, newBackends, ids := IndexConfig(newConfig.value);
      }
      var addedVips, modifiedVips := NewVips(vips, newVips);
      var removedVips := MissingVips(vips, newVips);
      var addedBackends, changedBackends := NewBackends(backends, newBackends);
      var removedBackends := MissingBackends(backends, newBackends, changedBackends, ModifiedBackendIds(backends, newBackends));
      d := Diff(addedVips, removedVips, modifiedVips, addedBackends, removedBackends);
    }
  }

  /** The entries found for a list of IDs. */
  method LookUp(m: map<string, Backend>, ids: seq<string>) returns (found: seq<Backend>)
    ensures (forall i :: 0 <= i < |ids| ==> ids[i] in m) ==>
              |found| == |ids| && forall i :: 0 <= i < |ids| ==> found[i] == m[ids[i]]
  {
    found := [];
    for i := 0 to |ids|
      invariant (forall j :: 0 <= j < i ==> ids[j] in m) ==> |found| == i && forall j :: 0 <= j < i ==> found[j] == m[ids[j]]
    {
      if ids[i] in m {
        found := found + [m[ids[i]]];
      }
    }
  }

  lemma LookUpFinds(c: Config, vipId: string, i: nat)
    requires Unique(c) && vipId in VipMap(c) && i < |VipMap(c)[vipId].backends|
    ensures var b := VipMap(c)[vipId].backends[i];
            b.id in BackendMap(AllBackends(c)) && BackendMap(AllBackends(c))[b.id] == b
  {
    VipMapEntries(c);
    var b := VipMap(c)[vipId].backends[i];
    assert b in AllBackends(c);
    MapOfUnique(AllBackends(c), b);
  }

  lemma BackendMapStep(before: seq<Backend>, bs: seq<Backend>, j: nat)
    requires j < |bs|
    ensures BackendMap(before + bs[..j + 1]) == BackendMap(before + bs[..j])[bs[j].id := bs[j]]
  {
    var longer := before + bs[..j + 1];
    assert longer[..|longer| - 1] == before + bs[..j];
  }

  /** The inner loop of rebuildMaps. */
  method IndexMore(m: map<string, Backend>, bs: seq<Backend>, ghost before: seq<Backend>)
      returns (backends: map<string, Backend>, ids: seq<string>)
    requires m == BackendMap(before)
    ensures backends == BackendMap(before + bs) && ids == IdsOf(bs)
  {
    backends, ids := m, [];
    assert before + bs[..0] == before;
    for j := 0 to |bs|
      invariant backends == BackendMap(before + bs[..j])
      invariant |ids| == j && forall i :: 0 <= i < j ==> ids[i] == bs[i].id
    {
      BackendMapStep(before, bs, j);
      backends, ids := backends[bs[j].id := bs[j]], ids + [bs[j].id];
    }
    assert bs[..|bs|] == bs;
  }

  lemma IndexStep(c: Config, i: nat)
    requires i < |c|
    ensures VipMap(c[..i + 1]) == VipMap(c[..i])[c[i].vip.id := c[i]]
    ensures AllBackends(c[..i + 1]) == AllBackends(c[..i]) + c[i].backends
    ensures BackendIdMap(c[..i + 1]) == BackendIdMap(c[..i])[c[i].vip.id := IdsOf(c[i].backends)]
  {
    assert c[..i + 1][..i] == c[..i];
  }

  /** rebuildMaps. */
  method IndexConfig(c: Config)
      returns (vips: map<string, VipConfig>, backends: map<string, Backend>, vipBackends: map<string, seq<string>>)
    ensures vips == VipMap(c) && backends == BackendMap(AllBackends(c)) && vipBackends == BackendIdMap(c)
  {
    vips, backends, vipBackends := map[], map[], map[];
    for i := 0 to |c|
      invariant vips == VipMap(c[..i]) && backends == BackendMap(AllBackends(c[..i])) && vipBackends == BackendIdMap(c[..i])
    {
      IndexStep(c, i);
      vips := vips[c[i].vip.id := c[i]];
      var ids;
      backends, ids := IndexMore(backends, c[i].backends, AllBackends(c[..i]));
      vipBackends := vipBackends[c[i].vip.id := ids];
    }
    assert c[..|c|] == c;
  }

  // --- the patch law ---

  function PatchVips(was: map<string, VipConfig>, d: Diff): map<string, VipConfig> {
    was - VipMap(d.removedVips).Keys - VipMap(d.modifiedVips).Keys + VipMap(d.addedVips) + VipMap(d.modifiedVips)
  }

  function PatchBackends(was: map<string, Backend>, d: Diff): map<string, Backend> {
    was - BackendMap(d.removedBackends).Keys + BackendMap(d.addedBackends)
  }

  lemma PatchedVips(d: Diff, was: Config, now: Config)
    requires DiffOf(d, was, now)
    ensures var patched := PatchVips(VipMap(was), d);
            && patched.Keys == VipMap(now).Keys
            && forall id :: id in patched ==>
                 || patched[id] == VipMap(now)[id]
                 || (id in VipMap(was) && patched[id] == VipMap(was)[id] && ConfigEqual(patched[id], VipMap(now)[id]))
  {
    var p, q, patched := VipMap(was), VipMap(now), PatchVips(VipMap(was), d);
    assert VipMap(d.removedVips).Keys == p.Keys - q.Keys;
    assert VipMap(d.addedVips).Keys == q.Keys - p.Keys;
    assert VipMap(d.modifiedVips).Keys == ModifiedVipIds(p, q);
    forall id | id in q ensures id in patched && (patched[id] == q[id] || (id in p && patched[id] == p[id] && ConfigEqual(p[id], q[id]))) {
      if id in p && id !in ModifiedVipIds(p, q) {
        assert patched[id] == p[id];
      }
    }
  }

  /** Applying the VIP lists to the old configuration gives the new one, up to what is compared. */
  lemma VipPatchLaw(d: Diff, was: Config, now: Config)
    requires DiffOf(d, was, now) && Unique(was) && Unique(now)
    ensures var patched := PatchVips(VipMap(was), d);
            && patched.Keys == VipMap(now).Keys
            && forall id :: id in patched ==> SeenConfig(patched[id]) == SeenConfig(VipMap(now)[id])
  {
    PatchedVips(d, was, now);
    var patched := PatchVips(VipMap(was), d);
    forall id | id in patched ensures SeenConfig(patched[id]) == SeenConfig(VipMap(now)[id]) {
      VipMapEntries(was);
      VipMapEntries(now);
      if patched[id] != VipMap(now)[id] {
        UniqueWithinVip(was, VipMap(was)[id]);
        UniqueWithinVip(now, VipMap(now)[id]);
        ConfigEqualIff(patched[id], VipMap(now)[id]);
      }
    }
  }

  lemma BackendPatchLaw(d: Diff, was: Config, now: Config)
    requires DiffOf(d, was, now)
    ensures SeenBackends(PatchBackends(BackendMap(AllBackends(was)), d)) == SeenBackends(BackendMap(AllBackends(now)))
  {
    var patched, wanted := PatchBackends(BackendMap(AllBackends(was)), d), BackendMap(AllBackends(now));
    BackendMapEntries(AllBackends(was));
    BackendMapEntries(AllBackends(now));
    BackendMapEntries(d.addedBackends);
    assert patched.Keys == wanted.Keys;
    assert forall id :: id in patched ==> BackendEqual(patched[id], wanted[id]);
    SeenBackendsIff(patched, wanted);
  }

  // --- emptiness ---

  /** A backend of one configuration is found, equal, in the other, if their VIPs compare equal. */
  lemma BackendCarriesOver(was: Config, now: Config, id: string)
    requires Unique(was) && Unique(now) && VipMap(was).Keys == VipMap(now).Keys
    requires forall v :: v in VipMap(now) ==> SeenConfig(VipMap(was)[v]) == SeenConfig(VipMap(now)[v])
    requires id in BackendMap(AllBackends(now))
    ensures id in BackendMap(AllBackends(was))
            && SeenBackend(BackendMap(AllBackends(was))[id]) == SeenBackend(BackendMap(AllBackends(now))[id])
  {
    BackendMapEntries(AllBackends(now));
    var b := BackendMap(AllBackends(now))[id];
    var v :| v in now && b in v.backends;
    VipMapOfUnique(now, v);
    VipMapEntries(was);
    var w := VipMap(was)[v.vip.id];
    UniqueWithinVip(now, v);
    UniqueWithinVip(was, w);
    MapOfUnique(v.backends, b);
    var p, q := BackendMap(w.backends), BackendMap(v.backends);
    assert SeenBackends(p) == SeenBackends(q);
    assert id in SeenBackends(q) && SeenBackends(p)[id] == SeenBackends(q)[id];
    BackendMapEntries(w.backends);
    assert p[id] in w.backends && p[id] in AllBackends(was);
    MapOfUnique(AllBackends(was), p[id]);
  }

  lemma ListsNoVip(s: seq<VipConfig>, m: map<string, VipConfig>, ids: set<string>)
    requires ListsVips(s, m, ids) && ids <= m.Keys
    ensures s == [] <==> ids == {}
  {
    VipMapEntries(s);
    assert Only(m, ids).Keys == ids;
  }

  lemma ListsNoBackend(s: seq<Backend>, m: map<string, Backend>, ids: set<string>)
    requires ListsBackends(s, m, ids) && ids <= m.Keys
    ensures s == [] <==> ids == {}
  {
    BackendMapEntries(s);
    assert Only(m, ids).Keys == ids;
  }

  lemma EmptyLists(d: Diff, was: Config, now: Config)
    requires DiffOf(d, was, now)
    ensures NoVipChange(d) <==> VipMap(was).Keys == VipMap(now).Keys && ModifiedVipIds(VipMap(was), VipMap(now)) == {}
    ensures d.addedBackends == [] && d.removedBackends == [] <==>
            && BackendMap(AllBackends(was)).Keys == BackendMap(AllBackends(now)).Keys
            && ModifiedBackendIds(BackendMap(AllBackends(was)), BackendMap(AllBackends(now))) == {}
  {
    var p, q, a, b := VipMap(was), VipMap(now), BackendMap(AllBackends(was)), BackendMap(AllBackends(now));
    ListsNoVip(d.addedVips, q, q.Keys - p.Keys);
    ListsNoVip(d.removedVips, p, p.Keys - q.Keys);
    ListsNoVip(d.modifiedVips, q, ModifiedVipIds(p, q));
    ListsNoBackend(d.addedBackends, b, b.Keys - a.Keys + ModifiedBackendIds(a, b));
    ListsNoBackend(d.removedBackends, a, a.Keys - b.Keys + ModifiedBackendIds(a, b));
  }

  /** Nothing changes exactly when no VIP is added, removed or modified: backends never change on their own. */
  lemma EmptyIffNoVipChange(d: Diff, was: Config, now: Config)
    requires DiffOf(d, was, now) && Unique(was) && Unique(now)
    ensures IsEmpty(d) <==> NoVipChange(d)
  {
    EmptyLists(d, was, now);
    if NoVipChange(d) {
      var p, q := VipMap(was), VipMap(now);
      VipMapEntries(was);
      VipMapEntries(now);
      forall v | v in q ensures SeenConfig(p[v]) == SeenConfig(q[v]) {
        UniqueWithinVip(was, p[v]);
        UniqueWithinVip(now, q[v]);
        assert v !in ModifiedVipIds(p, q);
        ConfigEqualIff(p[v], q[v]);
      }
      var a, b := BackendMap(AllBackends(was)), BackendMap(AllBackends(now));
      forall id | id in b ensures id in a && BackendEqual(a[id], b[id]) {
        BackendCarriesOver(was, now, id);
      }
      forall id | id in a ensures id in b {
        BackendCarriesOver(now, was, id);
      }
    }
  }
}
