/**
 The VPP dataplane: a cache of what was programmed, kept in step with a device that may have been
 changed behind its back and whose calls may fail at any time.
 */
module VppDataPlane {
  import opened Prelude
  import opened RolloutOrder

  type Address = string

  // Strings with a meaning, and any other string.
  datatype Protocol = Tcp | Udp | OtherProtocol(string)
  datatype Encap = Gre4 | Gre6 | L3Dsr | Nat4 | Nat6 | OtherEncap(string)
  datatype ServiceType = ClusterIp | NodePort | OtherService(string)

  /**
   A VirtualIP as the dataplane reads it; without an encapsulation of its own it takes the configured one.
   `backendCount` is the number of configured backends.
   */
  datatype Vip = Vip(
    key: string, address: Address, port: int, protocol: Protocol, encap: Option<Encap>, dscp: Option<int>, backendCount: nat)

  datatype Backend = Backend(address: Address, weight: int)

  datatype Config = Config(
    encap: Encap, dscp: int, serviceType: ServiceType, flowTableLength: int, failOnAllBackendsDown: bool, verifyInterval: int)

  datatype Attributes = Attributes(
    address: Address, port: int, protocol: Protocol, encap: Encap, dscp: int, serviceType: ServiceType, flowTableLength: int)

  /** What identifies a VIP inside VPP. Addresses are canonical, so equal strings mean equal prefixes. */
  datatype Tuple = Tuple(address: Address, protocol: int, port: int)

  /** A programmed VIP and its application servers. */
  datatype Slot = Slot(encap: int, dscp: int, serviceType: int, targetPort: int, flowTableLength: int, backends: set<Address>)

  datatype Entry = Entry(vip: Vip, backends: map<Address, Backend>, lastVerified: Option<int>)

  function U16(n: int): int { n % 0x1_0000 }

  function ProtocolNumber(p: Protocol): Result<int> {
    match p case Tcp => Ok(6) case Udp => Ok(17) case OtherProtocol(_) => Err
  }

  function EncapToApi(e: Encap): Result<int> {
    match e case Gre4 => Ok(0) case Gre6 => Ok(1) case L3Dsr => Ok(2) case Nat4 => Ok(3) case Nat6 => Ok(4) case OtherEncap(_) => Err
  }

  function ServiceTypeToApi(t: ServiceType): Result<int> {
    match t case ClusterIp => Ok(0) case NodePort => Ok(1) case OtherService(_) => Err
  }

  function TupleOf(vip: Vip): Result<Tuple> {
    var p := ProtocolNumber(vip.protocol);
    if p.Ok? then Ok(Tuple(vip.address, p.value, U16(vip.port))) else Err
  }

  function EffectiveAttributes(cfg: Config, vip: Vip): Result<Attributes> {
    var encap := if vip.encap.Some? then vip.encap.value else cfg.encap;
    var dscp := if encap != L3Dsr then 0 else if vip.dscp.Some? then vip.dscp.value else cfg.dscp;
    if encap == L3Dsr && dscp == 0 then Err
    else Ok(Attributes(vip.address, vip.port, vip.protocol, encap, dscp, cfg.serviceType, cfg.flowTableLength))
  }

  /** The slot `addVIP` asks VPP for, before any backend. */
  function DesiredSlot(cfg: Config, vip: Vip): Result<Slot> {
    var attrs := EffectiveAttributes(cfg, vip);
    if attrs.Err? then Err
    else
      var encap, service := EncapToApi(attrs.value.encap), ServiceTypeToApi(attrs.value.serviceType);
      if encap.Err? || service.Err? then Err
      else Ok(Slot(encap.value, attrs.value.dscp, service.value, U16(vip.port), cfg.flowTableLength, {}))
  }

  /** vipDetailsMatchDesired: the forwarding attributes; the flow table length is left to drift detection. */
  predicate MatchesDesired(cfg: Config, vip: Vip, slot: Slot) {
    && DesiredSlot(cfg, vip).Ok?
    && var want := DesiredSlot(cfg, vip).value;
       && slot.encap == want.encap
       && (EffectiveAttributes(cfg, vip).value.encap == L3Dsr ==> slot.dscp == want.dscp)
       && slot.serviceType == want.serviceType
       && slot.targetPort == want.targetPort
  }

  /** The dump API shows 16 bits of the 32-bit length. */
  predicate FlowTableDrifted(cfg: Config, slot: Slot) {
    U16(slot.flowTableLength) != U16(cfg.flowTableLength)
  }

  lemma SameAttributesSameProgramming(cfg: Config, a: Vip, b: Vip)
    requires EffectiveAttributes(cfg, a).Ok? && EffectiveAttributes(cfg, a) == EffectiveAttributes(cfg, b)
    ensures TupleOf(a) == TupleOf(b) && DesiredSlot(cfg, a) == DesiredSlot(cfg, b)
    ensures forall slot :: MatchesDesired(cfg, a, slot) == MatchesDesired(cfg, b, slot)
  {
  }

  /** Later entries win, as in a Go map filled in a loop. */
  function ByAddress(bs: seq<Backend>): (m: map<Address, Backend>)
    ensures m.Keys == set b | b in bs :: b.address
  {
    if bs == [] then map[]
    else
      var last := bs[|bs| - 1];
      assert bs == bs[..|bs| - 1] + [last];
      ByAddress(bs[..|bs| - 1])[last.address := last]
  }

  /** Of several backends with one address the last counts. */
  lemma {:induction false} LastBackendCounts(bs: seq<Backend>, i: nat)
    requires i < |bs| && forall j :: i < j < |bs| ==> bs[j].address != bs[i].address
    ensures bs[i].address in ByAddress(bs) && ByAddress(bs)[bs[i].address] == bs[i]
    decreases |bs|
  {
    if i < |bs| - 1 {
      LastBackendCounts(bs[..|bs| - 1], i);
    }
  }

  type Table = map<Tuple, Slot>

  /** How a recreate ended; `Refused` is the fail-closed check before anything is touched. */
  datatype Recreate = Done | Refused | DeleteFailed(routeSafeToRestore: bool) | AddFailed | BackendsFailed

  // --- the device ---

  /** VPP itself. A call that fails has no effect, and VPP refuses to add twice or to delete what is absent. */
  class Device {
    var table: Table
    var deletions: nat

    method AddVip(t: Result<Tuple>, slot: Result<Slot>) returns (ok: bool)
      modifies this
      ensures deletions == old(deletions)
      ensures ok ==> t.Ok? && slot.Ok? && t.value !in old(table) && table == old(table)[t.value := slot.value]
      ensures !ok ==> table == old(table)
    {
      ok := *;
      ok := ok && t.Ok? && slot.Ok? && t.value !in table;
      if ok { table := table[t.value := slot.value]; }
    }

    /** Deleting needs the attributes to be well formed as well. */
    method DeleteVip(t: Result<Tuple>, slot: Result<Slot>) returns (ok: bool)
      modifies this
      ensures ok ==> t.Ok? && slot.Ok? && t.value in old(table) && table == old(table) - {t.value} && deletions == old(deletions) + 1
      ensures !ok ==> table == old(table) && deletions == old(deletions)
    {
      ok := *;
      ok := ok && t.Ok? && slot.Ok? && t.value in table;
      if ok { table, deletions := table - {t.value}, deletions + 1; }
    }

    method Lookup(t: Result<Tuple>) returns (found: Result<Option<Slot>>)
      ensures found.Ok? ==> t.Ok? && found.value == if t.value in table then Some(table[t.value]) else None
    {
      var ok := *;
      if !ok || t.Err? {
        return Err;
      }
      found := Ok(if t.value in table then Some(table[t.value]) else None);
    }

    method AddBackend(t: Result<Tuple>, a: Address) returns (ok: bool)
      modifies this
      ensures deletions == old(deletions)
      ensures ok ==> t.Ok? && t.value in old(table) && a !in old(table)[t.value].backends
                     && table == WithBackends(old(table), t.value, old(table)[t.value].backends + {a})
      ensures !ok ==> table == old(table)
    {
      ok := *;
      ok := ok && t.Ok? && t.value in table && a !in table[t.value].backends;
      if ok { table := WithBackends(table, t.value, table[t.value].backends + {a}); }
    }

    method RemoveBackend(t: Result<Tuple>, a: Address) returns (ok: bool)
      modifies this
      ensures deletions == old(deletions)
      ensures ok ==> t.Ok? && t.value in old(table) && a in old(table)[t.value].backends
                     && table == WithBackends(old(table), t.value, old(table)[t.value].backends - {a})
      ensures !ok ==> table == old(table)
    {
      ok := *;
      ok := ok && t.Ok? && t.value in table && a in table[t.value].backends;
      if ok { table := WithBackends(table, t.value, table[t.value].backends - {a}); }
    }
  }

  function WithBackends(table: Table, t: Tuple, backends: set<Address>): Table
    requires t in table
  {
    table[t := table[t].(backends := backends)]
  }

  // --- cache against device ---

  /** The place of a VIP on the device: its address, the number of its protocol and the low 16 bits of its port. */
  predicate Names(t: Tuple, vip: Vip) {
    && t.address == vip.address && t.port == vip.port % 0x1_0000
    && ((vip.protocol == Tcp && t.protocol == 6) || (vip.protocol == Udp && t.protocol == 17))
  }

  /** The encapsulation a VIP asks for, or the configured one. */
  function EncapOf(cfg: Config, vip: Vip): Encap { if vip.encap.Some? then vip.encap.value else cfg.encap }

  /** The DSCP a VIP asks for, or the configured one; only L3DSR uses it. */
  function DscpOf(cfg: Config, vip: Vip): int { if vip.dscp.Some? then vip.dscp.value else cfg.dscp }

  /** A slot forwards as the VIP and the configuration ask, in the codes of the VPP API. */
  predicate Forwards(cfg: Config, vip: Vip, slot: Slot) {
    && slot.encap == (match EncapOf(cfg, vip) case Gre4 => 0 case Gre6 => 1 case L3Dsr => 2 case Nat4 => 3 case Nat6 => 4 case _ => -1)
    && !EncapOf(cfg, vip).OtherEncap?
    && (EncapOf(cfg, vip) == L3Dsr ==> slot.dscp == DscpOf(cfg, vip) && slot.dscp != 0)
    && ((cfg.serviceType == ClusterIp && slot.serviceType == 0) || (cfg.serviceType == NodePort && slot.serviceType == 1))
    && slot.targetPort == vip.port % 0x1_0000
  }

  /** Two VIPs ask for the same place and the same forwarding. */
  predicate SameForwarding(cfg: Config, a: Vip, b: Vip) {
    && a.address == b.address && a.port == b.port && a.protocol == b.protocol
    && EncapOf(cfg, a) == EncapOf(cfg, b)
    && (EncapOf(cfg, a) == L3Dsr ==> DscpOf(cfg, a) == DscpOf(cfg, b))
  }

  lemma TupleNames(vip: Vip, t: Tuple)
    ensures TupleOf(vip) == Ok(t) <==> Names(t, vip)
  {
  }

  /** vipDetailsMatchDesired tells exactly whether a slot forwards as asked, and addVIP asks for such a slot. */
  lemma MatchesIffForwards(cfg: Config, vip: Vip, slot: Slot)
    ensures MatchesDesired(cfg, vip, slot) <==> Forwards(cfg, vip, slot)
    ensures DesiredSlot(cfg, vip).Ok? ==> Forwards(cfg, vip, DesiredSlot(cfg, vip).value)
  {
  }

  lemma AttributesTellForwarding(cfg: Config, a: Vip, b: Vip)
    ensures SameForwarding(cfg, a, b) ==> EffectiveAttributes(cfg, a) == EffectiveAttributes(cfg, b)
    ensures EffectiveAttributes(cfg, a).Ok? && EffectiveAttributes(cfg, a) == EffectiveAttributes(cfg, b) ==> SameForwarding(cfg, a, b)
  {
  }

  /** A VIP stands at its place on the device and forwards as asked. */
  ghost predicate Stands(cfg: Config, vip: Vip, table: Table) {
    && TupleOf(vip).Ok? && Names(TupleOf(vip).value, vip) && TupleOf(vip).value in table
    && Forwards(cfg, vip, table[TupleOf(vip).value])
  }

  /** A cached entry says the truth: its VIP stands on the device with exactly its backends. */
  ghost predicate Truthful(cfg: Config, e: Entry, table: Table) {
    Stands(cfg, e.vip, table) && table[TupleOf(e.vip).value].backends == e.backends.Keys
  }

  /** The device holds exactly what an apply asked for. */
  ghost predicate Programmed(cfg: Config, vip: Vip, healthy: seq<Backend>, table: Table) {
    Stands(cfg, vip, table) && table[TupleOf(vip).value].backends == set b | b in healthy :: b.address
  }

  /** Two tables agree except possibly at the listed places. */
  ghost predicate SameExcept(a: Table, b: Table, places: set<Result<Tuple>>) {
    forall t :: Ok(t) !in places ==> (t in a <==> t in b) && (t in a ==> a[t] == b[t])
  }

  function WithBackend(e: Entry, b: Backend): Entry { e.(backends := e.backends[b.address := b]) }

  function WithoutBackend(e: Entry, b: Backend): Entry { e.(backends := e.backends - {b.address}) }

  class Vpp {
    const config: Config
    const device: Device

    var vips: map<string, Entry>
    var drifts: set<string>

    constructor (config: Config, device: Device)
      ensures this.config == config && this.device == device && vips == map[] && drifts == {}
    {
      this.config, this.device := config, device;
      vips, drifts := map[], {};
    }

    ghost predicate TruthfulAt(k: string)
      reads this, device
    {
      k in vips ==> Truthful(config, vips[k], device.table)
    }

    /** No other cached key names the tuple of `vip`. */
    predicate Unshared(vip: Vip)
      reads this
    {
      forall k :: k in vips && k != vip.key ==> TupleOf(vips[k].vip) != TupleOf(vip)
    }

    // --- backends ---

    /** The Go loop over the cached backends that are no longer wanted. */
    method RemoveStale(key: string, vip: Vip, desired: map<Address, Backend>) returns (ok: bool)
      requires key in vips
      modifies this`vips, device
      ensures key in vips && vips == old(vips)[key := old(vips)[key].(backends := vips[key].backends)]
      ensures device.deletions == old(device.deletions)
      ensures SameExcept(old(device.table), device.table, {TupleOf(vip)})
      ensures vips[key].backends.Keys <= old(vips)[key].backends.Keys
      ensures forall a :: a in vips[key].backends ==> vips[key].backends[a] == old(vips)[key].backends[a]
      ensures forall a :: a in old(vips)[key].backends && a in desired ==> a in vips[key].backends
      ensures ok ==> vips[key].backends.Keys <= desired.Keys
      ensures Follows(old(device.table), old(vips)[key].backends.Keys, device.table, vips[key].backends.Keys, TupleOf(vip))
    {
      ok := true;
      var todo := vips[key].backends.Keys - desired.Keys;
      while todo != {}
        invariant key in vips && vips == old(vips)[key := old(vips)[key].(backends := vips[key].backends)]
        invariant device.deletions == old(device.deletions)
        invariant SameExcept(old(device.table), device.table, {TupleOf(vip)})
        invariant vips[key].backends.Keys <= old(vips)[key].backends.Keys
        invariant todo <= vips[key].backends.Keys - desired.Keys
        invariant forall a :: a in vips[key].backends ==> vips[key].backends[a] == old(vips)[key].backends[a]
        invariant forall a :: a in old(vips)[key].backends && a in desired ==> a in vips[key].backends
        invariant ok ==> vips[key].backends.Keys <= desired.Keys + todo
        invariant Follows(old(device.table), old(vips)[key].backends.Keys, device.table, vips[key].backends.Keys, TupleOf(vip))
        decreases todo
      {
        var a :| a in todo;
        todo := todo - {a};
        var removed := device.RemoveBackend(TupleOf(vip), a);
        if removed {
          vips := vips[key := vips[key].(backends := vips[key].backends - {a})];
        } else {
          ok := false;
        }
      }
    }

    /** The Go loop over the wanted backends: known ones only refresh their metadata, the others are programmed. */
    method AddMissing(key: string, vip: Vip, desired: map<Address, Backend>) returns (ok: bool)
      requires key in vips
      modifies this`vips, device
      ensures key in vips && vips == old(vips)[key := old(vips)[key].(backends := vips[key].backends)]
      ensures device.deletions == old(device.deletions)
      ensures SameExcept(old(device.table), device.table, {TupleOf(vip)})
      ensures ok && old(vips)[key].backends.Keys <= desired.Keys ==> vips[key].backends == desired
      ensures Follows(old(device.table), old(vips)[key].backends.Keys, device.table, vips[key].backends.Keys, TupleOf(vip))
    {
      ok := true;
      var todo := desired.Keys;
      while todo != {}
        invariant key in vips && vips == old(vips)[key := old(vips)[key].(backends := vips[key].backends)]
        invariant device.deletions == old(device.deletions)
        invariant SameExcept(old(device.table), device.table, {TupleOf(vip)})
        invariant todo <= desired.Keys
        invariant vips[key].backends.Keys <= old(vips)[key].backends.Keys + desired.Keys
        invariant ok ==> forall a :: a in desired && a !in todo ==> a in vips[key].backends && vips[key].backends[a] == desired[a]
        invariant Follows(old(device.table), old(vips)[key].backends.Keys, device.table, vips[key].backends.Keys, TupleOf(vip))
        decreases todo
      {
        var a :| a in todo;
        todo := todo - {a};
        if a !in vips[key].backends {
          var added := device.AddBackend(TupleOf(vip), a);
          if !added {
            ok := false;
            continue;
          }
        }
        vips := vips[key := vips[key].(backends := vips[key].backends[a := desired[a]])];
      }
    }

    method ReconcileBackends(key: string, vip: Vip, healthy: seq<Backend>) returns (ok: bool)
      requires key in vips
      modifies this`vips, device
      ensures key in vips && vips == old(vips)[key := old(vips)[key].(backends := vips[key].backends)]
      ensures device.deletions == old(device.deletions)
      ensures SameExcept(old(device.table), device.table, {TupleOf(vip)})
      ensures ok ==> vips[key].backends == ByAddress(healthy)
      ensures Follows(old(device.table), old(vips)[key].backends.Keys, device.table, vips[key].backends.Keys, TupleOf(vip))
    {
      var desired := ByAddress(healthy);
      var removed := RemoveStale(key, vip, desired);
      var added := AddMissing(key, vip, desired);
      if !removed || !added {
        return false;
      }
      return !(desired != map[] && desired.Keys !! vips[key].backends.Keys);
    }

    // --- applying a VIP ---

    /** Cached keys name different tuples. */
    ghost predicate Distinct()
      reads this
    {
      forall j, k :: j in vips && k in vips && j != k ==> TupleOf(vips[j].vip) != TupleOf(vips[k].vip)
    }

    predicate ShouldVerify(e: Entry, now: int) {
      var interval := if config.verifyInterval > 0 then config.verifyInterval else 30_000_000;
      e.lastVerified.None? || e.lastVerified.value + interval <= now
    }

    predicate AttributesChanged(vip: Vip)
      reads this
    {
      vip.key in vips && EffectiveAttributes(config, vips[vip.key].vip) != EffectiveAttributes(config, vip)
    }

    /** The entry was not confirmed within the verification interval, 30 seconds unless configured. */
    predicate Overdue(e: Entry, now: int) {
      e.lastVerified.None? || now - e.lastVerified.value >= if config.verifyInterval > 0 then config.verifyInterval else 30_000_000
    }

    /** The apply consults the device instead of trusting the cache. */
    predicate Verifying(vip: Vip, now: int)
      reads this
    {
      vip.key !in vips || AttributesChanged(vip) || Overdue(vips[vip.key], now)
    }

    /** Neither the cache nor the device holds anything that an apply would have to delete first. */
    ghost predicate Harmless(vip: Vip)
      reads this, device
    {
      && (vip.key in vips ==> SameForwarding(config, vips[vip.key].vip, vip))
      && forall t :: t in device.table && Names(t, vip) ==> Forwards(config, vip, device.table[t])
    }

    /** All backends are down, and the configuration says not to touch anything then. */
    predicate FailsClosed(vip: Vip, healthy: seq<Backend>) {
      config.failOnAllBackendsDown && vip.backendCount > 0 && |healthy| == 0
    }

    /** The old cached tuple is free, unless it is also the new one. */
    ghost predicate OldTupleGone(old_: map<string, Entry>, vip: Vip)
      reads device
    {
      vip.key in old_ && TupleOf(old_[vip.key].vip) != TupleOf(vip) && TupleOf(old_[vip.key].vip).Ok?
      ==> TupleOf(old_[vip.key].vip).value !in device.table
    }

    ghost predicate FlowTableSettled(vip: Vip)
      reads this, device
    {
      TupleOf(vip).Ok? && TupleOf(vip).value in device.table
      && (device.table[TupleOf(vip).value].flowTableLength % 0x1_0000 != config.flowTableLength % 0x1_0000 ==> vip.key in drifts)
    }

    function Places(vip: Vip): set<Result<Tuple>>
      reads this
    {
      {TupleOf(vip)} + if vip.key in vips then {TupleOf(vips[vip.key].vip)} else {}
    }

    method DeleteForAttributeChange(key: string) returns (ok: bool)
      requires key in vips
      modifies this, device
      ensures !ok ==> vips == old(vips) && drifts == old(drifts) && device.table == old(device.table)
      ensures ok ==> vips == old(vips) - {key} && drifts == old(drifts) - {key}
                     && TupleOf(old(vips)[key].vip).Ok? && TupleOf(old(vips)[key].vip).value !in device.table
                     && SameExcept(old(device.table), device.table, {TupleOf(old(vips)[key].vip)})
    {
      var target := vips[key].vip;
      var found := device.Lookup(TupleOf(target));
      if found.Err? {
        return false;
      }
      if found.value.Some? {
        var deleted := device.DeleteVip(TupleOf(target), DesiredSlot(config, target));
        if !deleted {
          return false;
        }
      }
      vips, drifts := vips - {key}, drifts - {key};
      return true;
    }

    /** dumpBackends: what VPP lists, with the metadata the caller wants where it wants the address. */
    method DumpBackends(vip: Vip, slot: Slot, desired: seq<Backend>) returns (r: Result<map<Address, Backend>>)
      ensures r.Ok? ==> r.value.Keys == slot.backends
    {
      var ok := *;
      if !ok {
        return Err;
      }
      var wanted := ByAddress(desired);
      r := Ok(map a | a in slot.backends :: if a in wanted then wanted[a] else Backend(a, 1));
    }

    /** The common end of refreshCachedVIPLocked and adoptExistingVIPLocked: take over what VPP holds. */
    method TakeOver(vip: Vip, slot: Slot, desired: seq<Backend>, now: int) returns (ok: bool)
      requires TupleOf(vip).Ok? && TupleOf(vip).value in device.table && slot == device.table[TupleOf(vip).value]
      requires MatchesDesired(config, vip, slot)
      modifies this
      ensures !ok ==> vips == old(vips) && drifts == old(drifts)
      ensures ok ==> vip.key in vips && vips == old(vips)[vip.key := vips[vip.key]]
                     && vips[vip.key].vip == vip && Truthful(config, vips[vip.key], device.table)
                     && FlowTableSettled(vip)
                     && (vip.key in drifts <==> slot.flowTableLength % 0x1_0000 != config.flowTableLength % 0x1_0000)
                     && drifts - {vip.key} == old(drifts) - {vip.key}
    {
      var backends := DumpBackends(vip, slot, desired);
      if backends.Err? {
        return false;
      }
      vips := vips[vip.key := Entry(vip, backends.value, Some(now))];
      drifts := if FlowTableDrifted(config, slot) then drifts + {vip.key} else drifts - {vip.key};
      return true;
    }

    /** refreshCachedVIPLocked; `found` is false when the caller has to add the VIP anew. */
    method RefreshCached(vip: Vip, desired: seq<Backend>, now: int) returns (found: bool, ok: bool)
      requires vip.key in vips
      modifies this, device
      ensures !ok ==> vips == old(vips) && drifts == old(drifts)
                      && device.table == old(device.table) && device.deletions == old(device.deletions)
      ensures old(Harmless(vip)) ==> device.deletions == old(device.deletions)
      ensures ok && found ==> device.table == old(device.table) && vip.key in vips && vips == old(vips)[vip.key := vips[vip.key]]
                              && vips[vip.key].vip == vip && Truthful(config, vips[vip.key], device.table) && FlowTableSettled(vip)
      ensures ok && !found ==> vips == old(vips) - {vip.key} && TupleOf(vip).Ok? && TupleOf(vip).value !in device.table
                               && SameExcept(old(device.table), device.table, {TupleOf(vip)})
    {
      var detail := device.Lookup(TupleOf(vip));
      if detail.Err? {
        return false, false;
      }
      if detail.value.Some? && MatchesDesired(config, vip, detail.value.value) {
        ok := TakeOver(vip, detail.value.value, desired, now);
        return true, ok;
      }
      if detail.value.Some? {
        var deleted := device.DeleteVip(TupleOf(vip), DesiredSlot(config, vip));
        if !deleted {
          return true, false;
        }
      }
      vips, drifts := vips - {vip.key}, drifts - {vip.key};
      return false, true;
    }

    /** adoptExistingVIPLocked, for a key that is not cached. */
    method AdoptExisting(vip: Vip, desired: seq<Backend>, now: int) returns (adopted: bool, ok: bool)
      requires vip.key !in vips
      modifies this, device
      ensures !ok ==> vips == old(vips) && device.table == old(device.table) && device.deletions == old(device.deletions)
      ensures old(Harmless(vip)) ==> device.deletions == old(device.deletions)
      ensures ok && adopted ==> device.table == old(device.table) && vip.key in vips && vips == old(vips)[vip.key := vips[vip.key]]
                                && vips[vip.key].vip == vip && Truthful(config, vips[vip.key], device.table) && FlowTableSettled(vip)
      ensures ok && !adopted ==> vips == old(vips) && TupleOf(vip).Ok? && TupleOf(vip).value !in device.table
                                 && SameExcept(old(device.table), device.table, {TupleOf(vip)})
    {
      var detail := device.Lookup(TupleOf(vip));
      if detail.Err? {
        return false, false;
      }
      if detail.value.None? {
        return false, true;
      }
      if !MatchesDesired(config, vip, detail.value.value) {
        ok := device.DeleteVip(TupleOf(vip), DesiredSlot(config, vip));
        if ok {
          drifts := drifts - {vip.key};
        }
        return false, ok;
      }
      ok := TakeOver(vip, detail.value.value, desired, now);
      return ok, ok;
    }

    /** addVIP and the fresh cache entry for it. */
    method AddAnew(vip: Vip) returns (ok: bool)
      requires vip.key !in vips
      modifies this, device
      ensures device.deletions == old(device.deletions)
      ensures !ok ==> vips == old(vips) && drifts == old(drifts) && device.table == old(device.table)
      ensures ok ==> vip.key in vips && vips == old(vips)[vip.key := vips[vip.key]] && vips[vip.key].vip == vip
                     && drifts == old(drifts) - {vip.key}
                     && Truthful(config, vips[vip.key], device.table) && FlowTableSettled(vip)
                     && SameExcept(old(device.table), device.table, {TupleOf(vip)})
    {
      ok := device.AddVip(TupleOf(vip), DesiredSlot(config, vip));
      if ok {
        vips := vips[vip.key := Entry(vip, map[], None)];
        drifts := drifts - {vip.key};
      }
    }

    /** The branch of ApplyVIP for a VIP without a usable cache entry. */
    method AdoptOrAdd(vip: Vip, healthy: seq<Backend>, now: int, knownMissing: bool) returns (ok: bool)
      requires vip.key !in vips
      modifies this, device
      ensures old(Harmless(vip)) ==> device.deletions == old(device.deletions)
      ensures SameExcept(old(device.table), device.table, {TupleOf(vip)})
      ensures !ok ==> vips == old(vips) && device.table.Keys <= old(device.table.Keys)
      ensures !ok && device.deletions != old(device.deletions) ==> TupleOf(vip).Ok? && TupleOf(vip).value !in device.table
      ensures ok ==> vip.key in vips && vips == old(vips)[vip.key := vips[vip.key]] && vips[vip.key].vip == vip
                     && Truthful(config, vips[vip.key], device.table) && FlowTableSettled(vip)
    {
      var adopted := false;
      if !knownMissing {
        adopted, ok := AdoptExisting(vip, healthy, now);
        if !ok {
          return false;
        }
      }
      if !adopted {
        ok := AddAnew(vip);
      }
    }

    predicate AllBackendsDown(vip: Vip, healthy: seq<Backend>) {
      config.failOnAllBackendsDown && vip.backendCount > 0 && healthy == []
    }

    /** Cache entries of other keys that were true stay true. */
    twostate predicate OthersKept(key: string)
      reads this, device
    {
      forall k :: k != key ==> (k in vips <==> k in old(vips)) && (k in vips ==> vips[k] == old(vips[k]))
                               && (old(TruthfulAt(k)) ==> TruthfulAt(k))
    }

    /**
     What ApplyVIP does about a cached entry: drop it when the attributes changed, verify it when that is
     due, else trust it. `settled` means that the entry can be used; otherwise the VIP is to be added.
     */
    method PrepareCached(vip: Vip, healthy: seq<Backend>, now: int) returns (settled: bool, verified: bool, ok: bool)
      requires Distinct() && Unshared(vip) && vip.key in vips && EffectiveAttributes(config, vip).Ok?
      modifies this, device
      ensures OthersKept(vip.key)
      ensures SameExcept(old(device.table), device.table, old(Places(vip)))
      ensures old(Harmless(vip)) ==> device.deletions == old(device.deletions)
      ensures old(TruthfulAt(vip.key)) ==> TruthfulAt(vip.key)
      ensures !ok ==> vip.key in vips && vips[vip.key].vip == old(vips)[vip.key].vip
      ensures ok && settled ==> verified == old(Verifying(vip, now)) && vip.key in vips
                                && vips[vip.key].vip in {vip, old(vips)[vip.key].vip}
                                && EffectiveAttributes(config, vips[vip.key].vip) == EffectiveAttributes(config, vip)
      ensures ok && settled && verified ==> TruthfulAt(vip.key) && FlowTableSettled(vip) && TupleOf(old(vips)[vip.key].vip) == TupleOf(vip)
      ensures ok && settled && !verified ==> vips == old(vips) && device.table == old(device.table)
      // The old VIP is gone, and a verified absence leaves the new tuple free as well.
      ensures ok && !settled ==> old(Verifying(vip, now)) && vips == old(vips) - {vip.key}
                                 && TupleOf(old(vips)[vip.key].vip).Ok? && TupleOf(old(vips)[vip.key].vip).value !in device.table
                                 && (verified ==> TupleOf(vip).Ok? && TupleOf(vip).value !in device.table)
                                 && (old(Harmless(vip)) ==> verified)
    {
      if EffectiveAttributes(config, vips[vip.key].vip).Err? {
        return false, false, false;
      }
      if AttributesChanged(vip) {
        ok := DeleteForAttributeChange(vip.key);
        return false, false, ok;
      }
      if !ShouldVerify(vips[vip.key], now) {
        return true, false, true;
      }
      SameAttributesSameProgramming(config, vips[vip.key].vip, vip);
      var found;
      found, ok := RefreshCached(vip, healthy, now);
      if !ok {
        vips := vips[vip.key := vips[vip.key].(lastVerified := None)];
      }
      return found, true, ok;
    }

    /** ApplyVIP from its first checks up to the backends: afterwards the key has an entry for the desired VIP, or the call failed. */
    method PrepareEntry(vip: Vip, healthy: seq<Backend>, now: int) returns (verified: bool, ok: bool)
      requires Distinct() && Unshared(vip) && EffectiveAttributes(config, vip).Ok?
      modifies this, device
      ensures OthersKept(vip.key)
      ensures SameExcept(old(device.table), device.table, old(Places(vip)))
      ensures old(Harmless(vip)) ==> device.deletions == old(device.deletions)
      ensures old(TruthfulAt(vip.key)) ==> TruthfulAt(vip.key)
      ensures vip.key in old(vips) && vip.key !in vips ==>
                TupleOf(old(vips)[vip.key].vip).Ok? && TupleOf(old(vips)[vip.key].vip).value !in device.table
      ensures vip.key !in old(vips) && vip.key !in vips && device.deletions != old(device.deletions) ==>
                TupleOf(vip).Ok? && TupleOf(vip).value !in device.table
      ensures vip.key in vips ==> vips[vip.key].vip in {vip} + if vip.key in old(vips) then {old(vips)[vip.key].vip} else {}
      ensures ok ==> verified == old(Verifying(vip, now)) && vip.key in vips
                     && EffectiveAttributes(config, vips[vip.key].vip) == EffectiveAttributes(config, vip)
      ensures ok && verified ==> TruthfulAt(vip.key) && FlowTableSettled(vip) && OldTupleGone(old(vips), vip)
      ensures ok && !verified ==> vips == old(vips) && device.table == old(device.table)
    {
      var knownMissing := false;
      if vip.key in vips {
        var settled;
        settled, verified, ok := PrepareCached(vip, healthy, now);
        if !ok || settled {
          return;
        }
        knownMissing := verified;
      }
      label prepared:
      ok := AdoptOrAdd(vip, healthy, now, knownMissing);
      verified := true;
    }

    /** ApplyVIP from the backends on, for a key whose entry has the desired attributes. */
    method FinishApply(vip: Vip, healthy: seq<Backend>, verified: bool, now: int) returns (ok: bool)
      requires Distinct() && Unshared(vip) && vip.key in vips && EffectiveAttributes(config, vip).Ok?
      requires EffectiveAttributes(config, vips[vip.key].vip) == EffectiveAttributes(config, vip)
      modifies this`vips, device
      ensures Distinct() && OthersKept(vip.key) && vip.key in vips
      ensures SameExcept(old(device.table), device.table, {TupleOf(vip)})
      ensures device.deletions == old(device.deletions)
      ensures old(TruthfulAt(vip.key)) ==> TruthfulAt(vip.key)
      ensures old(FlowTableSettled(vip)) ==> FlowTableSettled(vip)
      ensures vips[vip.key].vip in {vip, old(vips)[vip.key].vip}
      ensures ok ==> vips[vip.key] == Entry(vip, ByAddress(healthy), if verified then Some(now) else old(vips)[vip.key].lastVerified)
      ensures ok && old(TruthfulAt(vip.key)) ==> Programmed(config, vip, healthy, device.table)
      ensures !ok ==> vips[vip.key].lastVerified == None
    {
      SameAttributesSameProgramming(config, vips[vip.key].vip, vip);
      ok := ReconcileBackends(vip.key, vip, healthy);
      var entry := vips[vip.key];
      if !ok {
        vips := vips[vip.key := entry.(lastVerified := None)];
      } else {
        vips := vips[vip.key := entry.(vip := vip, lastVerified := if verified then Some(now) else entry.lastVerified)];
      }
    }

    /**
     ApplyVIP. A success that consulted the device leaves it programmed exactly as asked, whatever it
     held before; a success that trusted a true cache does the same. Failures never make a true cache lie.
     */
    method ApplyVIP(vip: Vip, healthy: seq<Backend>, now: int) returns (ok: bool)
      requires Distinct() && Unshared(vip)
      modifies this, device
      ensures Distinct() && OthersKept(vip.key)
      ensures SameExcept(old(device.table), device.table, old(Places(vip)))
      ensures old(TruthfulAt(vip.key)) ==> TruthfulAt(vip.key)
      ensures FailsClosed(vip, healthy) ==> !ok && vips == old(vips) && drifts == old(drifts) && device.table == old(device.table)
      ensures ok ==> vip.key in vips && vips[vip.key].vip == vip && vips[vip.key].backends == ByAddress(healthy)
      ensures ok && (old(Verifying(vip, now)) || old(TruthfulAt(vip.key))) ==>
                Programmed(config, vip, healthy, device.table) && TruthfulAt(vip.key)
      ensures ok && old(Verifying(vip, now)) ==>
                FlowTableSettled(vip) && OldTupleGone(old(vips), vip) && vips[vip.key].lastVerified == Some(now)
      ensures old(Harmless(vip)) ==> device.deletions == old(device.deletions)
      ensures vip.key in vips ==> vips[vip.key].vip in {vip} + if vip.key in old(vips) then {old(vips)[vip.key].vip} else {}
      // What was dropped from the cache on the way really is gone from the device, and so is a VIP that was found there and deleted.
      ensures vip.key in old(vips) && vip.key !in vips ==>
                TupleOf(old(vips)[vip.key].vip).Ok? && TupleOf(old(vips)[vip.key].vip).value !in device.table
      ensures vip.key !in old(vips) && vip.key !in vips && device.deletions != old(device.deletions) ==>
                TupleOf(vip).Ok? && TupleOf(vip).value !in device.table
    {
      if EffectiveAttributes(config, vip).Err? || AllBackendsDown(vip, healthy) {
        return false;
      }
      var verified;
      verified, ok := PrepareEntry(vip, healthy, now);
      if !ok {
        return;
      }
      ok := FinishApply(vip, healthy, verified, now);
    }

    /** The end of RemoveVIP: delete at the target's tuple and forget the key. */
    method RemoveAt(key: string, target: Vip) returns (ok: bool)
      requires forall k :: k in vips && k != key ==> TupleOf(vips[k].vip) != TupleOf(target)
      modifies this, device
      ensures OthersKept(key)
      ensures SameExcept(old(device.table), device.table, {TupleOf(target)})
      ensures !ok ==> vips == old(vips) && drifts == old(drifts) && device.table == old(device.table)
      ensures ok ==> vips == old(vips) - {key} && drifts == old(drifts) - {key}
                     && TupleOf(target).Ok? && TupleOf(target).value in old(device.table) && TupleOf(target).value !in device.table
    {
      ok := device.DeleteVip(TupleOf(target), DesiredSlot(config, target));
      if ok {
        vips, drifts := vips - {key}, drifts - {key};
      }
    }

    /** Deletes at the cached tuple without looking first; an uncached VIP is looked up. */
    method RemoveVIP(vip: Vip) returns (ok: bool)
      requires Distinct() && Unshared(vip)
      modifies this, device
      ensures Distinct() && OthersKept(vip.key)
      ensures old(TruthfulAt(vip.key)) ==> TruthfulAt(vip.key)
      ensures !ok ==> vips == old(vips) && device.table == old(device.table)
      ensures ok ==> vips == old(vips) - {vip.key} && vip.key !in drifts
      ensures var target := if vip.key in old(vips) then old(vips)[vip.key].vip else vip;
              && SameExcept(old(device.table), device.table, {TupleOf(target)})
              && (ok ==> TupleOf(target).Ok? && TupleOf(target).value !in device.table)
              // A cached VIP that the device has lost can never be removed.
              && (vip.key in old(vips) && TupleOf(target).Ok? && TupleOf(target).value !in old(device.table) ==> !ok)
    {
      if vip.key in vips {
        ok := RemoveAt(vip.key, vips[vip.key].vip);
        return;
      }
      var found := device.Lookup(TupleOf(vip));
      if found.Err? {
        return false;
      }
      if found.value.None? {
        drifts := drifts - {vip.key};
        assert vips == vips - {vip.key};
        return true;
      }
      ok := RemoveAt(vip.key, vip);
    }

    /** Without an error the answer is exactly whether the cached or the programmed attributes differ from the desired ones. */
    method NeedsDrainForRetainedVIP(vip: Vip) returns (needs: bool, ok: bool)
      modifies this`vips
      ensures vips.Keys == old(vips.Keys) && forall k :: k in vips ==> vips[k] == old(vips)[k].(lastVerified := vips[k].lastVerified)
      ensures forall k :: k in vips && k != vip.key ==> vips[k] == old(vips)[k]
      ensures Harmless(vip) == old(Harmless(vip))
      ensures ok ==> (needs <==> !Harmless(vip))
      // A cached VIP that does not stand on the device will be verified by the next apply.
      ensures ok && vip.key in vips && SameForwarding(config, vips[vip.key].vip, vip) ==>
                vips[vip.key].lastVerified == if Stands(config, vip, device.table) then old(vips)[vip.key].lastVerified else None
    {
      if EffectiveAttributes(config, vip).Err? {
        return false, false;
      }
      if vip.key in vips {
        if EffectiveAttributes(config, vips[vip.key].vip).Err? {
          return false, false;
        }
        if AttributesChanged(vip) {
          return true, true;
        }
      }
      var detail := device.Lookup(TupleOf(vip));
      var matches := detail.Ok? && detail.value.Some? && MatchesDesired(config, vip, detail.value.value);
      if !matches && vip.key in vips {
        vips := vips[vip.key := vips[vip.key].(lastVerified := None)];
      }
      if detail.Err? {
        return false, false;
      }
      return detail.value.Some? && !matches, true;
    }

    /** The rollout key of the address or of the previous one, unless that is empty. */
    ghost predicate KeyOfEither(k: string, a: Address, previous: Option<Address>) {
      || (a != "" && k == "vip-address/" + a)
      || (previous.Some? && previous.value != "" && k == "vip-address/" + previous.value)
    }

    lemma DisruptedKeys(vip: Vip, previous: Option<Address>, k: string)
      ensures k in KeysOf(Disrupted(vip, previous)) <==> KeyOfEither(k, vip.address, previous)
    {
      var addresses := NonEmpty(Disrupted(vip, previous));
      if vip.address != "" {
        assert vip.address in addresses && RolloutKey(vip.address) in KeysOf(Disrupted(vip, previous));
      }
      if previous.Some? && previous.value != "" {
        assert Disrupted(vip, previous)[0] == previous.value;
        assert previous.value in addresses && RolloutKey(previous.value) in KeysOf(Disrupted(vip, previous));
      }
    }

    /** The addresses whose traffic an update may disturb. */
    function Disrupted(vip: Vip, previous: Option<Address>): seq<Address> {
      if previous.Some? then [previous.value, vip.address] else [vip.address]
    }

    /**
     planVIPUpdate. A VIP that is about to change its address is planned without a drain: it leaves its
     previous address before the apply. Otherwise compare with the last applied VIP, when it can be
     read, and then ask the device. Any error plans a drain.
     */
    method PlanVIPUpdate(vip: Vip, previous: Option<Address>, applied: Result<Option<Vip>>)
        returns (rolloutKeys: seq<string>, drainBeforeApply: bool, ok: bool)
      modifies this`vips
      ensures vips.Keys == old(vips.Keys) && forall k :: k in vips ==> vips[k] == old(vips)[k].(lastVerified := vips[k].lastVerified)
      ensures previous.Some? ==> ok && !drainBeforeApply
      ensures previous.None? && ok ==> (drainBeforeApply <==> Disruptive(vip, applied))
      ensures previous.None? && !ok ==> drainBeforeApply
      ensures previous.None? && !drainBeforeApply ==> rolloutKeys == []
      // Whoever may disrupt an address holds its key.
      ensures drainBeforeApply || previous.Some? ==>
                && Ascending(rolloutKeys)
                && forall k :: k in rolloutKeys <==> KeyOfEither(k, vip.address, previous)
    {
      forall k ensures k in KeysOf(Disrupted(vip, previous)) <==> KeyOfEither(k, vip.address, previous) {
        DisruptedKeys(vip, previous, k);
      }
      if previous.Some? {
        rolloutKeys := RolloutKeysForAddresses(Disrupted(vip, previous));
        return rolloutKeys, false, true;
      }
      drainBeforeApply, ok := NeedsDrain(vip, applied);
      rolloutKeys := [];
      if drainBeforeApply {
        rolloutKeys := RolloutKeysForAddresses(Disrupted(vip, previous));
      }
    }

    /** The last applied VIP had the same address and other forwarding, or something would have to be deleted first. */
    ghost predicate Disruptive(vip: Vip, applied: Result<Option<Vip>>)
      reads this, device
    {
      || (&& applied.Ok? && applied.value.Some? && applied.value.value.address == vip.address
          && !SameForwarding(config, applied.value.value, vip))
      || !Harmless(vip)
    }

    /** needsDrainForVIPUpdate and needsDrainForRetainedVIP, with an error counted as a need. */
    method NeedsDrain(vip: Vip, applied: Result<Option<Vip>>) returns (needs: bool, ok: bool)
      modifies this`vips
      ensures vips.Keys == old(vips.Keys) && forall k :: k in vips ==> vips[k] == old(vips)[k].(lastVerified := vips[k].lastVerified)
      ensures ok ==> (needs <==> Disruptive(vip, applied))
      ensures !ok ==> needs
    {
      if applied.Err? {
        return true, false;
      }
      if applied.value.Some? && applied.value.value.address == vip.address {
        AttributesTellForwarding(config, applied.value.value, vip);
        var was, want := EffectiveAttributes(config, applied.value.value), EffectiveAttributes(config, vip);
        if was.Err? || want.Err? {
          return true, false;
        }
        if was != want {
          return true, true;
        }
      }
      needs, ok := NeedsDrainForRetainedVIP(vip);
      return needs || !ok, ok;
    }

    /** The backends of a VIP that was just added. */
    method Fill(vip: Vip, healthy: seq<Backend>) returns (ok: bool)
      requires Distinct() && vip.key in vips && vips[vip.key].vip == vip && TruthfulAt(vip.key) && FlowTableSettled(vip)
      modifies this`vips, device
      ensures OthersKept(vip.key) && vip.key in vips && vips[vip.key].vip == vip && TruthfulAt(vip.key) && FlowTableSettled(vip)
      ensures SameExcept(old(device.table), device.table, {TupleOf(vip)})
      ensures device.deletions == old(device.deletions)
      ensures ok ==> Programmed(config, vip, healthy, device.table)
    {
      ok := ReconcileBackends(vip.key, vip, healthy);
    }

    /** The second half of RecreateVIP, once the old VIP is gone. */
    method AddAndFill(vip: Vip, healthy: seq<Backend>) returns (r: Recreate)
      requires Distinct() && Unshared(vip) && vip.key !in vips
      modifies this, device
      ensures Distinct() && OthersKept(vip.key) && TruthfulAt(vip.key)
      ensures SameExcept(old(device.table), device.table, {TupleOf(vip)})
      ensures device.deletions == old(device.deletions)
      ensures vip.key !in drifts && r in {Done, AddFailed, BackendsFailed}
      ensures r == AddFailed ==> vips == old(vips) && device.table == old(device.table)
      ensures r != AddFailed ==> vip.key in vips && vips[vip.key].vip == vip && FlowTableSettled(vip)
      ensures r == Done ==> Programmed(config, vip, healthy, device.table)
    {
      drifts := drifts - {vip.key};
      var added := AddAnew(vip);
      if !added {
        return AddFailed;
      }
      assert OthersKept(vip.key);
      var complete := Fill(vip, healthy);
      return if complete then Done else BackendsFailed;
    }

    function RecreateTarget(vip: Vip): Vip
      reads this
    {
      if vip.key in vips then vips[vip.key].vip else vip
    }

    /** The start of RecreateVIP; after a failed delete it looks whether the old VIP is still in place. */
    method DeleteOld(vip: Vip) returns (deleted: bool, seen: bool)
      requires Distinct() && Unshared(vip)
      modifies this`vips, device
      ensures Distinct() && Unshared(vip) && OthersKept(vip.key)
      ensures SameExcept(old(device.table), device.table, {TupleOf(old(RecreateTarget(vip)))})
      ensures !deleted ==> device.table == old(device.table) && vips == old(vips)
      ensures !deleted && seen ==> TupleOf(RecreateTarget(vip)).Ok? && TupleOf(RecreateTarget(vip)).value in device.table
      ensures deleted ==> vips == old(vips) - {vip.key} && device.deletions == old(device.deletions) + 1
                          && TupleOf(old(RecreateTarget(vip))).Ok? && TupleOf(old(RecreateTarget(vip))).value !in device.table
    {
      var target := RecreateTarget(vip);
      deleted := device.DeleteVip(TupleOf(target), DesiredSlot(config, target));
      if !deleted {
        var found := device.Lookup(TupleOf(target));
        return false, found.Ok? && found.value.Some?;
      }
      vips, seen := vips - {vip.key}, false;
    }

    /**
     RecreateVIP. The route may be restored after a failed delete only when the old VIP was seen in
     place; a failed add leaves neither a cache entry nor a VIP at the deleted tuple.
     */
    method RecreateVIP(vip: Vip, healthy: seq<Backend>) returns (r: Recreate)
      requires Distinct() && Unshared(vip)
      modifies this, device
      ensures Distinct() && OthersKept(vip.key)
      ensures SameExcept(old(device.table), device.table, {TupleOf(old(RecreateTarget(vip))), TupleOf(vip)})
      ensures r == Refused <==> FailsClosed(vip, healthy)
      ensures r == Refused || r.DeleteFailed? ==> device.table == old(device.table) && vips == old(vips) && drifts == old(drifts)
      ensures r.DeleteFailed? && r.routeSafeToRestore ==>
                TupleOf(RecreateTarget(vip)).Ok? && TupleOf(RecreateTarget(vip)).value in device.table
      ensures r in {Done, AddFailed, BackendsFailed} ==> (
                && TruthfulAt(vip.key) && vip.key !in drifts
                && device.deletions == old(device.deletions) + 1
                && TupleOf(old(RecreateTarget(vip))).Ok?
                && (r == AddFailed || TupleOf(old(RecreateTarget(vip))) != TupleOf(vip) ==>
                      TupleOf(old(RecreateTarget(vip))).value !in device.table))
      ensures r == AddFailed ==> vip.key !in vips
      ensures r == Done || r == BackendsFailed ==> vip.key in vips && vips[vip.key].vip == vip && FlowTableSettled(vip)
      ensures r == Done ==> Programmed(config, vip, healthy, device.table)
    {
      if AllBackendsDown(vip, healthy) {
        return Refused;
      }
      var deleted, seen := DeleteOld(vip);
      if !deleted {
        return DeleteFailed(seen);
      }
      label deletedOld:
      r := AddAndFill(vip, healthy);
      assert OthersKept@deletedOld(vip.key);
    }

    /** SetBackends trusts the caller's VIP for the tuple and the cache for the backends. */
    method SetBackends(vip: Vip, backends: seq<Backend>) returns (ok: bool)
      requires Distinct() && Unshared(vip)
      modifies this`vips, device
      ensures Distinct() && OthersKept(vip.key)
      ensures vips == if vip.key in old(vips) && vip.key in vips
                      then old(vips)[vip.key := old(vips)[vip.key].(backends := vips[vip.key].backends)] else old(vips)
      ensures ok ==> vip.key in vips && vips[vip.key].backends == ByAddress(backends)
      ensures FailsClosed(vip, backends) ==> !ok && vips == old(vips) && device.table == old(device.table)
      ensures vip.key in vips && TupleOf(vip) == TupleOf(vips[vip.key].vip) && old(TruthfulAt(vip.key)) ==> TruthfulAt(vip.key)
    {
      if vip.key !in vips || AllBackendsDown(vip, backends) {
        return false;
      }
      ok := ReconcileBackends(vip.key, vip, backends);
    }

    /** A true entry stays true exactly when the caller's VIP names the cached tuple, or the backend was cached already. */
    method AddBackend(vip: Vip, backend: Backend) returns (ok: bool)
      modifies this`vips, device
      ensures !ok ==> vips == old(vips) && device.table == old(device.table)
      ensures SameExcept(old(device.table), device.table, {TupleOf(vip)})
      ensures ok ==> vip.key in old(vips)
                     && vips == old(vips)[vip.key := WithBackend(old(vips)[vip.key], backend)]
      ensures ok && vip.key in old(vips) && old(TruthfulAt(vip.key)) ==>
                (TruthfulAt(vip.key) <==>
                   TupleOf(vip) == TupleOf(old(vips)[vip.key].vip) || backend.address in old(vips)[vip.key].backends)
      // Another key's true entry turns false exactly when it is the one that holds the tuple.
      ensures forall k :: ok && k in vips && k != vip.key && old(TruthfulAt(k)) ==>
                            (TruthfulAt(k) <==> TupleOf(vips[k].vip) != TupleOf(vip))
    {
      if vip.key !in vips {
        return false;
      }
      ok := device.AddBackend(TupleOf(vip), backend.address);
      if ok {
        vips := vips[vip.key := WithBackend(vips[vip.key], backend)];
      }
    }

    /** Likewise: exactly when the tuples agree, or the backend was not cached. An uncached VIP is reported as done. */
    method RemoveBackend(vip: Vip, backend: Backend) returns (ok: bool)
      modifies this`vips, device
      ensures !ok || vip.key !in old(vips) ==> vips == old(vips) && device.table == old(device.table)
      ensures vip.key !in old(vips) ==> ok
      ensures SameExcept(old(device.table), device.table, {TupleOf(vip)})
      ensures ok && vip.key in old(vips) ==> vips == old(vips)[vip.key := WithoutBackend(old(vips)[vip.key], backend)]
      ensures ok && vip.key in old(vips) && old(TruthfulAt(vip.key)) ==>
                (TruthfulAt(vip.key) <==>
                   TupleOf(vip) == TupleOf(old(vips)[vip.key].vip) || backend.address !in old(vips)[vip.key].backends)
      ensures forall k :: ok && vip.key in old(vips) && k in vips && k != vip.key && old(TruthfulAt(k)) ==>
                            (TruthfulAt(k) <==> TupleOf(vips[k].vip) != TupleOf(vip))
    {
      if vip.key !in vips {
        return true;
      }
      ok := device.RemoveBackend(TupleOf(vip), backend.address);
      if ok {
        vips := vips[vip.key := WithoutBackend(vips[vip.key], backend)];
      }
    }

    // --- every sequence of operations ---

    /** Every entry is true and was written under its own key, and no two name the same tuple. */
    ghost predicate Coherent()
      reads this, device
    {
      && (forall k :: TruthfulAt(k)) && Distinct()
      && forall k :: k in vips ==> vips[k].vip.key == k
    }

    /** The backend operations trust the caller's VIP, so they are safe on a key cached under the same tuple. */
    predicate Trusted(op: Operation)
      reads this
    {
      op.BackendOp? && op.vip.key in vips ==> TupleOf(op.vip) == TupleOf(vips[op.vip.key].vip)
    }

    method VipStep(op: Operation)
      requires Coherent() && Unshared(op.vip) && !op.BackendOp?
      modifies this, device
      ensures Coherent()
    {
      assert TruthfulAt(op.vip.key);
      match op
      case Apply(vip, healthy, now) =>
        var _ := ApplyVIP(vip, healthy, now);
      case Remove(vip) =>
        var _ := RemoveVIP(vip);
      case Recreation(vip, healthy) =>
        var _ := RecreateVIP(vip, healthy);
      case Inspect(vip) =>
        var _, _ := NeedsDrainForRetainedVIP(vip);
        forall k ensures TruthfulAt(k) {
          assert old(TruthfulAt(k));
        }
    }

    method BackendStep(op: Operation)
      requires Coherent() && Unshared(op.vip) && op.BackendOp? && Trusted(op)
      modifies this, device
      ensures Coherent()
    {
      assert TruthfulAt(op.vip.key);
      match op.change
      case Replace(backends) =>
        var _ := SetBackends(op.vip, backends);
      case AddOne(backend) =>
        var _ := AddBackend(op.vip, backend);
        forall k ensures TruthfulAt(k) {
          assert old(TruthfulAt(k));
        }
      case RemoveOne(backend) =>
        var _ := RemoveBackend(op.vip, backend);
        forall k ensures TruthfulAt(k) {
          assert old(TruthfulAt(k));
        }
    }

    /**
     From an empty cache, cache and device agree after every run, up to an operation on a tuple that
     another key holds at that moment or an untrusted backend operation.
     */
    method RunOperations(ops: seq<Operation>) returns (n: nat)
      requires vips == map[]
      modifies this, device
      ensures n <= |ops| && (n < |ops| ==> !Trusted(ops[n]) || !Unshared(ops[n].vip))
      ensures forall k :: k in vips ==> Truthful(config, vips[k], device.table)
    {
      n := 0;
      while n < |ops| && Trusted(ops[n]) && Unshared(ops[n].vip)
        invariant n <= |ops| && Coherent()
      {
        if ops[n].BackendOp? {
          BackendStep(ops[n]);
        } else {
          VipStep(ops[n]);
        }
        n := n + 1;
      }
      forall k | k in vips ensures Truthful(config, vips[k], device.table) {
        assert TruthfulAt(k);
      }
    }
  }

  datatype BackendChange = Replace(backends: seq<Backend>) | AddOne(backend: Backend) | RemoveOne(backend: Backend)

  datatype Operation =
    | Apply(vip: Vip, healthy: seq<Backend>, now: int)
    | Remove(vip: Vip)
    | Recreation(vip: Vip, healthy: seq<Backend>)
    | Inspect(vip: Vip)
    | BackendOp(vip: Vip, change: BackendChange)

  // --- backend operations that name another tuple ---

  const PLAIN := Config(Gre4, 0, ClusterIp, 1024, false, 0)

  function WebVip(port: int): Vip { Vip("ns/web", "192.0.2.1", port, Tcp, None, None, 1) }

  /** A device that serves ports 80 and 81 with the given backends. */
  function WebTable(on80: set<Address>, on81: set<Address>): Table {
    map[TupleOf(WebVip(80)).value := DesiredSlot(PLAIN, WebVip(80)).value.(backends := on80),
        TupleOf(WebVip(81)).value := DesiredSlot(PLAIN, WebVip(81)).value.(backends := on81)]
  }

  /** The key is cached for port 80; adding a backend at port 81, as AddBackend does, makes the cache lie. */
  lemma AddingElsewhereLies(b: Backend)
    ensures var e, t, table := Entry(WebVip(80), map[], None), TupleOf(WebVip(81)).value, WebTable({}, {});
            Truthful(PLAIN, e, table) && !Truthful(PLAIN, WithBackend(e, b), WithBackends(table, t, table[t].backends + {b.address}))
  {
    var e, t, table := Entry(WebVip(80), map[], None), TupleOf(WebVip(81)).value, WebTable({}, {});
    assert b.address in WithBackend(e, b).backends.Keys;
    assert b.address !in WithBackends(table, t, {b.address})[TupleOf(WebVip(80)).value].backends;
  }

  /** So does removing one there that the cache lists for port 80. */
  lemma RemovingElsewhereLies(b: Backend)
    ensures var e, t, table := Entry(WebVip(80), map[b.address := b], None), TupleOf(WebVip(81)).value, WebTable({b.address}, {b.address});
            Truthful(PLAIN, e, table) && !Truthful(PLAIN, WithoutBackend(e, b), WithBackends(table, t, table[t].backends - {b.address}))
  {
    var e, t, table := Entry(WebVip(80), map[b.address := b], None), TupleOf(WebVip(81)).value, WebTable({b.address}, {b.address});
    assert b.address !in WithoutBackend(e, b).backends.Keys;
    assert b.address in WithBackends(table, t, table[t].backends - {b.address})[TupleOf(WebVip(80)).value].backends;
  }

  /** Wherever cache and device agreed on the backends of `t`, they still do; nothing else of the slot changed. */
  ghost predicate Follows(was: Table, cachedWas: set<Address>, now: Table, cached: set<Address>, t: Result<Tuple>) {
    t.Ok? && t.value in was ==>
      && t.value in now
      && now[t.value] == was[t.value].(backends := now[t.value].backends)
      && (was[t.value].backends == cachedWas ==> now[t.value].backends == cached)
  }
}
