/**
 What the agent does before it serves: VIPs that an earlier run applied or was about to apply, and that
 are no longer wanted in that form, are withdrawn, removed and forgotten.
 */
module StartupCleanup {
  import opened Prelude

  type Address = string

  datatype Spec = Spec(address: Address, port: int, protocol: string, encap: string, dscp: Option<int>)

  /** A listed VirtualIP; `valid` is the outcome of its validation. */
  datatype CurrentVip = CurrentVip(key: string, terminating: bool, valid: bool, spec: Spec)

  datatype Source = LastApplied | Pending_

  datatype RecordId = RecordId(source: Source, key: string)

  /** Stored records; one that cannot be decoded has no spec. */
  type Records = map<RecordId, Option<Spec>>

  datatype Action = Withdraw(address: Address) | Remove(key: string, spec: Spec) | Forget(record: RecordId)

  /** A namespace and a name, both non-empty, around the first slash. */
  predicate WellFormedKey(key: string) {
    exists i :: 0 < i < |key| - 1 && key[i] == '/' && '/' !in key[..i]
  }

  lemma WellFormedIff(key: string)
    ensures WellFormedKey(key) <==> exists namespace, name :: Names(key, namespace, name)
  {
    if i :| 0 < i < |key| - 1 && key[i] == '/' && '/' !in key[..i] {
      assert key == key[..i] + "/" + key[i + 1..];
      assert Names(key, key[..i], key[i + 1..]);
    }
    if namespace, name :| Names(key, namespace, name) {
      assert key[..|namespace|] == namespace && key[|namespace|] == '/';
    }
  }

  /** The key is a namespace without a slash, a slash and a name. */
  predicate Names(key: string, namespace: string, name: string) {
    namespace != "" && name != "" && '/' !in namespace && key == namespace + "/" + name
  }

  /** sameRetainedVIPIdentity: these are the parts of a specification that the model has. */
  predicate SameIdentity(a: Spec, b: Spec) {
    a.address == b.address && a.port == b.port && a.protocol == b.protocol && a.encap == b.encap && a.dscp == b.dscp
  }

  // --- what is wanted ---

  /** The live VIPs by key. */
  function ByKey(vips: seq<CurrentVip>): map<string, Spec> {
    if vips == [] then map[]
    else
      var last := vips[|vips| - 1];
      if last.terminating then ByKey(vips[..|vips| - 1]) else ByKey(vips[..|vips| - 1])[last.key := last.spec]
  }

  function ValidKeys(vips: seq<CurrentVip>): set<string> { set v | v in vips && !v.terminating && v.valid :: v.key }

  function ValidAddresses(vips: seq<CurrentVip>): set<Address> { set v | v in vips && !v.terminating && v.valid :: v.spec.address }

  function Decoded(id: RecordId, record: Option<Spec>): Option<Spec> {
    if WellFormedKey(id.key) then record else None
  }

  /** The current spec of the record's key is invalid, so its last good state stays. */
  predicate Preserved(id: RecordId, vips: seq<CurrentVip>) { id.key in ByKey(vips) && id.key !in ValidKeys(vips) }

  predicate UpToDate(id: RecordId, spec: Spec, vips: seq<CurrentVip>) {
    id.key in ByKey(vips) && id.key in ValidKeys(vips) && spec == ByKey(vips)[id.key]
  }

  predicate Stays(id: RecordId, record: Option<Spec>, vips: seq<CurrentVip>) {
    Decoded(id, record).Some? && (Preserved(id, vips) || UpToDate(id, Decoded(id, record).value, vips))
  }

  function PreservedAddresses(records: Records, vips: seq<CurrentVip>): set<Address> {
    set id | id in records && Decoded(id, records[id]).Some? && Preserved(id, vips) && Decoded(id, records[id]).value.address != ""
      :: Decoded(id, records[id]).value.address
  }

  /** Addresses whose route must stay. */
  function Protected(records: Records, vips: seq<CurrentVip>): set<Address> {
    ValidAddresses(vips) + PreservedAddresses(records, vips)
  }

  // --- what was done ---

  /** A decodable record of this key and spec that should not stay. */
  predicate Stale(key: string, spec: Spec, records: Records, vips: seq<CurrentVip>) {
    exists id :: id in records && id.key == key && Decoded(id, records[id]) == Some(spec) && !Stays(id, records[id], vips)
  }

  /**
   No protected route is withdrawn; the dataplane gives up only stale VIPs, each after its route unless
   that is protected; and a record is forgotten only after that.
   */
  ghost predicate Safe(trace: seq<Action>, records: Records, vips: seq<CurrentVip>, keep: set<Address>, hasRouter: bool) {
    && (forall i :: 0 <= i < |trace| && trace[i].Withdraw? ==> trace[i].address !in keep)
    && (forall i :: 0 <= i < |trace| && trace[i].Remove? ==>
          && Stale(trace[i].key, trace[i].spec, records, vips)
          && (hasRouter && trace[i].spec.address !in keep ==> Withdraw(trace[i].spec.address) in trace[..i]))
    && forall i :: 0 <= i < |trace| && trace[i].Forget? ==>
         && trace[i].record in records && records[trace[i].record].Some?
         && Remove(trace[i].record.key, records[trace[i].record].value) in trace[..i]
  }

  datatype Retained = Retained(id: RecordId, spec: Spec)

  /** The calls of one cleanup: a route only if it may go, then the dataplane, then the record. */
  function Calls(r: Retained, withdraw: bool): seq<Action> {
    (if withdraw then [Withdraw(r.spec.address)] else []) + [Remove(r.id.key, r.spec), Forget(r.id)]
  }

  /** They are made in that order, up to the first failure; the record is gone exactly after all of them. */
  ghost predicate Orderly(done: seq<Action>, r: Retained, withdraw: bool, forgotten: bool) {
    done <= Calls(r, withdraw) && (forgotten <==> done == Calls(r, withdraw))
  }

  lemma SafeExtends(trace: seq<Action>, done: seq<Action>, records: Records, vips: seq<CurrentVip>, keep: set<Address>, hasRouter: bool,
                    r: Retained, forgotten: bool)
    requires Safe(trace, records, vips, keep, hasRouter)
    requires r.id in records && records[r.id] == Some(r.spec) && Stale(r.id.key, r.spec, records, vips)
    requires Orderly(done, r, hasRouter && r.spec.address !in keep, forgotten)
    ensures Safe(trace + done, records, vips, keep, hasRouter)
  {
    var all := trace + done;
    forall i | 0 <= i < |all|
      ensures all[i].Withdraw? ==> all[i].address !in keep
      ensures all[i].Remove? ==> Stale(all[i].key, all[i].spec, records, vips)
      ensures all[i].Remove? && hasRouter && all[i].spec.address !in keep ==> Withdraw(all[i].spec.address) in all[..i]
      ensures all[i].Forget? ==> all[i].record in records && records[all[i].record].Some?
                                 && Remove(all[i].record.key, records[all[i].record].value) in all[..i]
    {
      if i < |trace| {
        assert all[i] == trace[i] && all[..i] == trace[..i];
      } else {
        var j := i - |trace|;
        var calls := Calls(r, hasRouter && r.spec.address !in keep);
        assert all[i] == done[j] == calls[j] && all[..i] == trace + calls[..j];
        assert j > 0 ==> calls[j - 1] in calls[..j];
      }
    }
  }

  method IndexCurrent(vips: seq<CurrentVip>) returns (byKey: map<string, Spec>, validKeys: set<string>, addresses: set<Address>)
    ensures byKey == ByKey(vips) && validKeys == ValidKeys(vips) && addresses == ValidAddresses(vips)
  {
    byKey, validKeys, addresses := map[], {}, {};
    for i := 0 to |vips|
      invariant byKey == ByKey(vips[..i]) && validKeys == ValidKeys(vips[..i]) && addresses == ValidAddresses(vips[..i])
    {
      var v := vips[i];
      assert vips[..i + 1][..i] == vips[..i] && vips[..i + 1] == vips[..i] + [v];
      if v.terminating {
        continue;
      }
      byKey := byKey[v.key := v.spec];
      if !v.valid {
        continue;
      }
      validKeys, addresses := validKeys + {v.key}, addresses + {v.spec.address};
    }
    assert vips[..|vips|] == vips;
  }

  /** Every decodable record among `ids` is listed once. */
  ghost predicate Lists(retained: seq<Retained>, records: Records, ids: set<RecordId>) {
    && (forall i, j :: 0 <= i < j < |retained| ==> retained[i].id != retained[j].id)
    && (forall i :: 0 <= i < |retained| ==>
          retained[i].id in ids && retained[i].id in records && Decoded(retained[i].id, records[retained[i].id]) == Some(retained[i].spec))
    && forall id :: id in ids && id in records && Decoded(id, records[id]).Some? ==>
         Retained(id, Decoded(id, records[id]).value) in retained
  }

  predicate AllDecodable(records: Records, ids: set<RecordId>) {
    forall id :: id in ids && id in records ==> Decoded(id, records[id]).Some?
  }

  function OfSource(records: Records, source: Source): set<RecordId> { set id | id in records && id.source == source }

  /** One of the two decoding loops, continuing the list of the other. */
  method DecodeSource(records: Records, source: Source, start: seq<Retained>, ghost before: set<RecordId>)
      returns (retained: seq<Retained>, ok: bool)
    requires Lists(start, records, before) && before !! OfSource(records, source)
    ensures Lists(retained, records, before + OfSource(records, source))
    ensures ok <==> AllDecodable(records, OfSource(records, source))
  {
    retained, ok := start, true;
    var ids := OfSource(records, source);
    var todo := ids;
    assert before + (ids - todo) == before;
    while todo != {}
      invariant todo <= ids && Lists(retained, records, before + (ids - todo))
      invariant ok <==> AllDecodable(records, ids - todo)
      decreases todo
    {
      var id :| id in todo;
      ghost var seen := before + (ids - todo);
      todo := todo - {id};
      assert before + (ids - todo) == seen + {id};
      var spec := Decoded(id, records[id]);
      if spec.None? {
        ok := false;
        continue;
      }
      retained := retained + [Retained(id, spec.value)];
    }
    assert ids - todo == ids;
  }

  method DecodeAll(records: Records) returns (retained: seq<Retained>, ok: bool)
    ensures Lists(retained, records, records.Keys)
    ensures ok <==> AllDecodable(records, records.Keys)
  {
    var applied, appliedOk := DecodeSource(records, LastApplied, [], {});
    var both, pendingOk := DecodeSource(records, Pending_, applied, {} + OfSource(records, LastApplied));
    assert OfSource(records, LastApplied) + OfSource(records, Pending_) == records.Keys;
    assert {} + OfSource(records, LastApplied) + OfSource(records, Pending_) == records.Keys;
    return both, appliedOk && pendingOk;
  }

  /** The loop that adds the addresses of preserved records. */
  method Protect(retained: seq<Retained>, byKey: map<string, Spec>, validKeys: set<string>, valid: set<Address>,
                 ghost records: Records, ghost vips: seq<CurrentVip>) returns (keep: set<Address>)
    requires Lists(retained, records, records.Keys)
    requires byKey == ByKey(vips) && validKeys == ValidKeys(vips) && valid == ValidAddresses(vips)
    ensures keep == Protected(records, vips)
  {
    keep := valid;
    for i := 0 to |retained|
      invariant valid <= keep <= valid + PreservedAddresses(records, vips)
      invariant forall j :: 0 <= j < i && Preserved(retained[j].id, vips) && retained[j].spec.address != "" ==>
                  retained[j].spec.address in keep
    {
      var r := retained[i];
      if r.id.key in byKey && r.id.key !in validKeys && r.spec.address != "" {
        assert r.spec.address in PreservedAddresses(records, vips);
        keep := keep + {r.spec.address};
      }
    }
  }

  /** What is known after the first `n` retained records were looked at. */
  ghost predicate Progress(was: Records, records: Records, announced: set<Address>, trace: seq<Action>, hasRouter: bool,
                           retained: seq<Retained>, n: nat, vips: seq<CurrentVip>, keep: set<Address>)
    requires n <= |retained|
  {
    && records.Keys <= was.Keys && (forall id :: id in records ==> records[id] == was[id])
    && (forall id :: id in was && id !in records ==>
          Forget(id) in trace && Decoded(id, was[id]).Some? && !Stays(id, was[id], vips))
    && (forall j :: n <= j < |retained| ==> retained[j].id in records)
    && (hasRouter ==> forall j :: 0 <= j < n && retained[j].id !in records && retained[j].spec.address !in keep ==>
                        retained[j].spec.address !in announced)
  }

  lemma ProgressAfterCleanup(was: Records, records: Records, after: Records, announced: set<Address>, announcedAfter: set<Address>,
                             trace: seq<Action>, done: seq<Action>, hasRouter: bool,
                             retained: seq<Retained>, n: nat, vips: seq<CurrentVip>, keep: set<Address>)
    requires n < |retained| && Lists(retained, was, was.Keys)
    requires Progress(was, records, announced, trace, hasRouter, retained, n, vips, keep)
    requires !Stays(retained[n].id, was[retained[n].id], vips)
    requires after == records || after == records - {retained[n].id}
    requires announcedAfter <= announced
    requires retained[n].id !in after ==> Forget(retained[n].id) in done
    requires retained[n].id !in after && retained[n].spec.address !in keep && hasRouter ==> retained[n].spec.address !in announcedAfter
    ensures Progress(was, after, announcedAfter, trace + done, hasRouter, retained, n + 1, vips, keep)
  {
  }

  /** Both bookkeepings of the last loop, for one more record that does not stay. */
  lemma OneMoreCleaned(was: Records, records: Records, after: Records, announced: set<Address>, announcedAfter: set<Address>,
                       trace: seq<Action>, done: seq<Action>, hasRouter: bool,
                       retained: seq<Retained>, n: nat, vips: seq<CurrentVip>, keep: set<Address>)
    requires n < |retained| && Lists(retained, was, was.Keys)
    requires Progress(was, records, announced, trace, hasRouter, retained, n, vips, keep)
    requires Safe(trace, was, vips, keep, hasRouter)
    requires !Stays(retained[n].id, was[retained[n].id], vips)
    requires after == records || after == records - {retained[n].id}
    requires announcedAfter <= announced
    requires Orderly(done, retained[n], hasRouter && retained[n].spec.address !in keep, retained[n].id !in after)
    requires retained[n].id !in after && retained[n].spec.address !in keep && hasRouter ==> retained[n].spec.address !in announcedAfter
    ensures Progress(was, after, announcedAfter, trace + done, hasRouter, retained, n + 1, vips, keep)
    ensures Safe(trace + done, was, vips, keep, hasRouter)
  {
    var r := retained[n];
    assert Stale(r.id.key, r.spec, was, vips);
    SafeExtends(trace, done, was, vips, keep, hasRouter, r, r.id !in after);
    var calls := Calls(r, hasRouter && r.spec.address !in keep);
    assert calls[|calls| - 1] == Forget(r.id);
    ProgressAfterCleanup(was, records, after, announced, announcedAfter, trace, done, hasRouter, retained, n, vips, keep);
  }

  /** The first `n` records of keys that are gone have left no health states behind. */
  ghost predicate HealthForgotten(healthStates: set<string>, retained: seq<Retained>, n: nat, byKey: map<string, Spec>)
    requires n <= |retained|
  {
    forall j :: 0 <= j < n && retained[j].id.key !in byKey ==> retained[j].id.key !in healthStates
  }

  lemma HealthForgottenGrows(was: set<string>, now: set<string>, retained: seq<Retained>, n: nat, byKey: map<string, Spec>)
    requires n < |retained| && HealthForgotten(was, retained, n, byKey) && now <= was
    requires retained[n].id.key !in byKey ==> retained[n].id.key !in now
    ensures HealthForgotten(now, retained, n + 1, byKey)
  {
  }

  /** Of the first `n` records those that are left should stay. */
  ghost predicate LeftStay(records: Records, retained: seq<Retained>, n: nat, vips: seq<CurrentVip>)
    requires n <= |retained|
  {
    forall j :: 0 <= j < n && retained[j].id in records ==> Stays(retained[j].id, records[retained[j].id], vips)
  }

  lemma LeftStayGrows(was: Records, now: Records, retained: seq<Retained>, n: nat, vips: seq<CurrentVip>)
    requires n < |retained| && LeftStay(was, retained, n, vips)
    requires now.Keys <= was.Keys && forall id :: id in now ==> now[id] == was[id]
    requires retained[n].id in now ==> Stays(retained[n].id, now[retained[n].id], vips)
    ensures LeftStay(now, retained, n + 1, vips)
  {
  }

  // --- live VIPs whose tuple is given up ---

  predicate SameTuple(a: Spec, b: Spec) { a.address == b.address && a.port == b.port && a.protocol == b.protocol }

  /** `v` is the valid live VIP of its key. */
  predicate Serving(v: CurrentVip, vips: seq<CurrentVip>) {
    v.key in ByKey(vips) && v.key in ValidKeys(vips) && ByKey(vips)[v.key] == v.spec
  }

  /**
   A record with the tuple of a live VIP: of the same key with another encapsulation or DSCP, or of a key
   that is gone or now wants something else.
   */
  predicate Threatens(id: RecordId, spec: Spec, v: CurrentVip, vips: seq<CurrentVip>) {
    && SameTuple(spec, v.spec)
    && if id.key == v.key then spec.encap != v.spec.encap || spec.dscp != v.spec.dscp
       else id.key !in ByKey(vips) || (id.key in ValidKeys(vips) && spec != ByKey(vips)[id.key])
  }

  /** Without an error, the dataplane is asked to remove the tuple of a live VIP exactly when some record threatens it. */
  lemma LiveTupleRemovedIff(trace: seq<Action>, records: Records, after: Records, vips: seq<CurrentVip>, keep: set<Address>,
                            hasRouter: bool, v: CurrentVip)
    requires Serving(v, vips) && Safe(trace, records, vips, keep, hasRouter)
    requires forall id :: id in records && id !in after ==> Forget(id) in trace
    requires forall id :: id in records && id in after ==> Stays(id, records[id], vips)
    ensures (exists key, spec :: Remove(key, spec) in trace && SameTuple(spec, v.spec)) <==>
            exists id :: id in records && Decoded(id, records[id]).Some? && Threatens(id, Decoded(id, records[id]).value, v, vips)
  {
    if key, spec :| Remove(key, spec) in trace && SameTuple(spec, v.spec) {
      assert Stale(key, spec, records, vips);
      var id :| id in records && id.key == key && Decoded(id, records[id]) == Some(spec) && !Stays(id, records[id], vips);
      assert Threatens(id, Decoded(id, records[id]).value, v, vips);
    }
    if id :| id in records && Decoded(id, records[id]).Some? && Threatens(id, Decoded(id, records[id]).value, v, vips) {
      assert !Stays(id, records[id], vips);
      assert Forget(id) in trace;
      assert Remove(id.key, records[id].value) in trace;
    }
  }

  /** A live VIP whose encapsulation changed while the agent was down: its tuple goes although its route is protected. */
  lemma ChangedEncapIsRemoved() returns (records: Records, id: RecordId, v: CurrentVip)
    ensures Serving(v, [v]) && id in records && records[id].Some? && WellFormedKey(id.key)
    ensures Threatens(id, records[id].value, v, [v]) && v.spec.address in Protected(records, [v])
  {
    var key := "ns/web";
    id, v := RecordId(LastApplied, key), CurrentVip(key, false, true, Spec("192.0.2.1", 80, "TCP", "NAT4", None));
    records := map[id := Some(v.spec.(encap := "GRE4"))];
    assert key[2] == '/' && '/' !in key[..2];
    assert [v][..0] == [];
  }

  class Agent {
    const hasRouter: bool

    var records: Records
    var healthStates: set<string>
    var announced: set<Address>
    /** Every successful call of this start, oldest first. */
    ghost var trace: seq<Action>

    constructor (hasRouter: bool, records: Records, healthStates: set<string>, announced: set<Address>)
      ensures this.hasRouter == hasRouter && this.records == records && this.healthStates == healthStates
      ensures this.announced == announced && trace == []
    {
      this.hasRouter, this.records, this.healthStates, this.announced := hasRouter, records, healthStates, announced;
      trace := [];
    }

    /** cleanupRetainedVIP: route, dataplane, record, health states, stopping at the first failure. */
    method CleanupRetainedVIP(r: Retained, withdrawRoute: bool, deleteHealthStates: bool) returns (ok: bool, ghost done: seq<Action>)
      requires r.id in records
      modifies this`records, this`healthStates, this`announced, this`trace
      ensures records == old(records) || records == old(records) - {r.id}
      ensures ok ==> r.id !in records
      ensures if ok && deleteHealthStates then healthStates == old(healthStates) - {r.id.key} else healthStates == old(healthStates)
      ensures announced <= old(announced) && announced >= old(announced) - (if withdrawRoute then {r.spec.address} else {})
      ensures r.id !in records && withdrawRoute && hasRouter ==> r.spec.address !in announced
      ensures trace == old(trace) + done && Orderly(done, r, hasRouter && withdrawRoute, r.id !in records)
    {
      done := [];
      var called := *;
      if withdrawRoute && hasRouter {
        if !called {
          return false, done;
        }
        announced := announced - {r.spec.address};
        done := [Withdraw(r.spec.address)];
        trace := trace + done;
      }
      called := *;
      if !called {
        return false, done;
      }
      done := done + [Remove(r.id.key, r.spec)];
      trace := trace + [Remove(r.id.key, r.spec)];
      called := *;
      if !called {
        return false, done;
      }
      records := records - {r.id};
      done := done + [Forget(r.id)];
      trace := trace + [Forget(r.id)];
      if !deleteHealthStates {
        return true, done;
      }
      called := *;
      if !called {
        return false, done;
      }
      healthStates := healthStates - {r.id.key};
      return true, done;
    }

    /** One round of the last loop, for a record that does not stay. The rollout may fail before or after its body. */
    method CleanupOne(r: Retained, keep: set<Address>, current: bool) returns (ok: bool, ghost done: seq<Action>)
      requires r.id in records
      modifies this`records, this`healthStates, this`announced, this`trace
      ensures records == old(records) || records == old(records) - {r.id}
      ensures ok ==> r.id !in records
      ensures healthStates == old(healthStates) || (!current && healthStates == old(healthStates) - {r.id.key})
      ensures ok && !current ==> r.id.key !in healthStates
      ensures old(announced) * keep <= announced <= old(announced)
      ensures r.id !in records && r.spec.address !in keep && hasRouter ==> r.spec.address !in announced
      ensures trace == old(trace) + done && Orderly(done, r, hasRouter && r.spec.address !in keep, r.id !in records)
    {
      var entered, left := *, *;
      done := [];
      if !entered {
        return false, done;
      }
      ok, done := CleanupRetainedVIP(r, r.spec.address !in keep, !current);
      ok := ok && left;
    }

    /** One round of the last loop. */
    method CleanupRound(retained: seq<Retained>, i: nat, byKey: map<string, Spec>, validKeys: set<string>, keep: set<Address>,
                        ghost vips: seq<CurrentVip>, ghost was: Records) returns (ok: bool)
      requires i < |retained| && Lists(retained, was, was.Keys)
      requires byKey == ByKey(vips) && validKeys == ValidKeys(vips)
      requires Progress(was, records, announced, trace, hasRouter, retained, i, vips, keep)
      requires Safe(trace, was, vips, keep, hasRouter)
      modifies this`records, this`healthStates, this`announced, this`trace
      ensures Progress(was, records, announced, trace, hasRouter, retained, i + 1, vips, keep)
      ensures Safe(trace, was, vips, keep, hasRouter)
      ensures records.Keys <= old(records).Keys && old(announced) * keep <= announced
      ensures ok && retained[i].id in records ==> Stays(retained[i].id, records[retained[i].id], vips)
      ensures ok && retained[i].id.key !in byKey ==> retained[i].id.key !in healthStates
      ensures healthStates == old(healthStates)
              || (retained[i].id.key !in byKey && healthStates == old(healthStates) - {retained[i].id.key})
    {
      var r := retained[i];
      if r.id.key in byKey && (r.id.key !in validKeys || SameIdentity(r.spec, byKey[r.id.key])) {
        return true;
      }
      ghost var done;
      ok, done := CleanupOne(r, keep, r.id.key in byKey);
      OneMoreCleaned(was, old(records), records, old(announced), announced, old(trace), done, hasRouter, retained, i, vips, keep);
    }

    /** The last loop. Whatever fails, only records that do not stay are touched, and every call is safe. */
    method CleanupStale(retained: seq<Retained>, byKey: map<string, Spec>, validKeys: set<string>, keep: set<Address>,
                        ghost vips: seq<CurrentVip>) returns (ok: bool)
      requires Lists(retained, records, records.Keys) && trace == []
      requires byKey == ByKey(vips) && validKeys == ValidKeys(vips) && keep == Protected(records, vips)
      modifies this`records, this`healthStates, this`announced, this`trace
      ensures Progress(old(records), records, announced, trace, hasRouter, retained, |retained|, vips, keep)
      ensures Safe(trace, old(records), vips, keep, hasRouter)
      ensures ok ==> LeftStay(records, retained, |retained|, vips)
      ensures old(announced) * keep <= announced
      ensures ok ==> HealthForgotten(healthStates, retained, |retained|, byKey)
      ensures healthStates <= old(healthStates) && forall k :: k in old(healthStates) - healthStates ==> k !in byKey
    {
      ghost var was := records;
      ok := true;
      for i := 0 to |retained|
        invariant Progress(was, records, announced, trace, hasRouter, retained, i, vips, keep) && Safe(trace, was, vips, keep, hasRouter)
        invariant ok ==> LeftStay(records, retained, i, vips)
        invariant old(announced) * keep <= announced
        invariant ok ==> HealthForgotten(healthStates, retained, i, byKey)
        invariant healthStates <= old(healthStates) && forall k :: k in old(healthStates) - healthStates ==> k !in byKey
      {
        ghost var states, before := healthStates, records;
        var cleaned := CleanupRound(retained, i, byKey, validKeys, keep, vips, was);
        ok := ok && cleaned;
        if ok {
          HealthForgottenGrows(states, healthStates, retained, i, byKey);
          LeftStayGrows(before, records, retained, i, vips);
        }
      }
    }

    /**
     cleanupStaleLastConfigs. No protected address is withdrawn, a record goes only after the dataplane
     gave up its VIP, and without an error exactly the records that should stay are left.
     */
    method CleanupStaleLastConfigs(vips: seq<CurrentVip>) returns (ok: bool)
      requires trace == []
      modifies this`records, this`healthStates, this`announced, this`trace
      ensures Safe(trace, old(records), vips, Protected(old(records), vips), hasRouter)
      ensures forall id :: id in old(records) && id !in records ==> Forget(id) in trace
      ensures records.Keys <= old(records).Keys && forall id :: id in records ==> records[id] == old(records)[id]
      ensures forall id :: id in old(records) && id !in records ==> !Stays(id, old(records)[id], vips)
      ensures ok ==> forall id :: id in old(records) ==> (id in records <==> Stays(id, old(records)[id], vips))
      // Without an error, the record of a valid live VIP is left only if it is the live specification.
      ensures ok ==> forall id :: id in records && id.key in ByKey(vips) && id.key in ValidKeys(vips) ==>
                       records[id] == Some(ByKey(vips)[id.key])
      ensures ok ==> forall id :: id in old(records) && id.key !in ByKey(vips) ==> id.key !in healthStates
      ensures old(announced) * Protected(old(records), vips) <= announced
      ensures healthStates <= old(healthStates) && forall k :: k in old(healthStates) - healthStates ==> k !in ByKey(vips)
      ensures hasRouter ==> forall id :: id in old(records) && id !in records && old(records)[id].Some?
                                         && old(records)[id].value.address !in Protected(old(records), vips) ==>
                                           old(records)[id].value.address !in announced
    {
      var loaded := *;
      if !loaded {
        return false;
      }
      ghost var was := records;
      var byKey, validKeys, valid := IndexCurrent(vips);
      var retained, decoded := DecodeAll(records);
      var keep := Protect(retained, byKey, validKeys, valid, records, vips);
      ok := CleanupStale(retained, byKey, validKeys, keep, vips);
      forall id | id in was && Decoded(id, was[id]).Some?
        ensures exists j :: 0 <= j < |retained| && retained[j] == Retained(id, Decoded(id, was[id]).value)
      {
        assert Retained(id, Decoded(id, was[id]).value) in retained;
      }
      ok := ok && decoded;
    }
  }
}
