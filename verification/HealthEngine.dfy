/**
 The health check engine around the counters: VIPs are started, updated and stopped while probes are in
 flight, every instance has its own epoch, and counters are written to a store after the lock is released.
 */
module HealthEngine {
  import opened Prelude
  import opened Hysteresis

  datatype Backend = Backend(vip: string, address: string)

  datatype Vip = Vip(epoch: nat, rise: int, fall: int, backends: map<string, Counters>)

  datatype ProbeResult = ProbeResult(vip: string, epoch: nat, address: string, success: bool)

  type Store = map<Backend, Counters>

  /** What a started backend begins with: the running counters, else the stored ones, else none. */
  function Inherited(existing: Option<Vip>, store: Store, b: Backend, unreadable: set<string>): Counters {
    if existing.Some? && b.address in existing.value.backends then existing.value.backends[b.address]
    else if b in store && b.address !in unreadable then store[b]
    else INITIAL
  }

  function StartedBackends(key: string, existing: Option<Vip>, store: Store, addresses: set<string>, unreadable: set<string>)
      : map<string, Counters>
  {
    map a | a in addresses :: Inherited(existing, store, Backend(key, a), unreadable)
  }

  function Lookup(vips: map<string, Vip>, key: string): Option<Vip> {
    if key in vips then Some(vips[key]) else None
  }

  /** The result belongs to the registered instance and one of its backends. */
  predicate Current(vips: map<string, Vip>, r: ProbeResult) {
    r.vip in vips && vips[r.vip].epoch == r.epoch && r.address in vips[r.vip].backends
  }

  function ProbeOf(vip: Vip, r: ProbeResult): Probe { Probe(r.success, vip.rise, vip.fall) }

  function Handled(vips: map<string, Vip>, r: ProbeResult): map<string, Vip> {
    if !Current(vips, r) then vips
    else
      var vip := vips[r.vip];
      vips[r.vip := vip.(backends := vip.backends[r.address := Step(vip.backends[r.address], ProbeOf(vip, r))])]
  }

  class Engine {
    var vips: map<string, Vip>
    var nextEpoch: nat
    var store: Store

    /** startVIPLocked; `valid` tells whether the spec passed validation and a prober could be made. */
    method StartVIP(key: string, valid: bool, rise: int, fall: int, addresses: seq<string>)
        returns (ok: bool, ghost unreadable: set<string>)
      modifies this`vips, this`nextEpoch
      ensures ok == valid
      ensures !ok ==> vips == old(vips) && nextEpoch == old(nextEpoch)
      ensures ok ==> nextEpoch == old(nextEpoch) + 1 && key in vips && vips == old(vips)[key := vips[key]]
      ensures ok ==> vips[key].epoch == nextEpoch && vips[key].rise == rise && vips[key].fall == fall
                     && vips[key].backends == StartedBackends(key, Lookup(old(vips), key), store, (set a | a in addresses), unreadable)
    {
      unreadable := {};
      if !valid {
        return false, {};
      }
      var existing := Lookup(vips, key);
      nextEpoch := nextEpoch + 1;
      var backends: map<string, Counters> := map[];
      // An address may be listed twice; its last reading counts.
      var i := 0;
      while i < |addresses|
        invariant 0 <= i <= |addresses|
        invariant backends == StartedBackends(key, existing, store, (set a | a in addresses[..i]), unreadable)
      {
        var a := addresses[i];
        var b := Backend(key, a);
        if existing.Some? && a in existing.value.backends {
          backends := backends[a := existing.value.backends[a]];
        } else {
          var readable := *;
          unreadable := if readable then unreadable - {a} else unreadable + {a};
          backends := backends[a := if b in store && readable then store[b] else INITIAL];
        }
        i := i + 1;
      }
      assert addresses[..i] == addresses;
      vips := vips[key := Vip(nextEpoch, rise, fall, backends)];
      ok := true;
    }

    /** The locked part of handleResult; the record is to be saved and the transition to be reported. */
    method ApplyResult(r: ProbeResult) returns (record: Option<Counters>, transition: Option<(BackendState, BackendState)>)
      modifies this`vips
      ensures vips == Handled(old(vips), r)
      ensures record.Some? <==> Current(old(vips), r)
      ensures record.Some? ==> Current(vips, r) && record.value == vips[r.vip].backends[r.address]
      ensures transition.Some? <==>
                Current(old(vips), r) && old(vips)[r.vip].backends[r.address].state != vips[r.vip].backends[r.address].state
      ensures transition.Some? ==> transition.value == (old(vips)[r.vip].backends[r.address].state, vips[r.vip].backends[r.address].state)
    {
      if r.vip !in vips {
        return None, None;
      }
      var vip := vips[r.vip];
      if vip.epoch != r.epoch || r.address !in vip.backends {
        return None, None;
      }
      var c := vip.backends[r.address];
      var previous := c.state;
      if r.success {
        c := c.(up := c.up + 1, down := 0);
        if c.state != Up && c.up >= vip.rise {
          c := c.(state := Up);
        }
      } else {
        c := c.(down := c.down + 1, up := 0);
        if c.state != Down && c.down >= vip.fall {
          c := c.(state := Down);
        }
      }
      vips := vips[r.vip := vip.(backends := vip.backends[r.address := c])];
      return Some(c), if previous != c.state then Some((previous, c.state)) else None;
    }
  }

  /** The older tracker; it keys its map by the two identifiers joined with a colon. */
  class StateTracker {
    var states: map<string, Counters>

    method UpdateProbeResult(vipId: string, backendId: string, success: bool, rise: int, fall: int)
        returns (previous: BackendState, current: BackendState, changed: bool)
      modifies this
      ensures var key := vipId + ":" + backendId;
              var was := if key in old(states) then old(states)[key] else INITIAL;
              && states == old(states)[key := TrackerStep(was, Probe(success, rise, fall))]
              && previous == was.state && current == states[key].state && changed == (previous != current)
    {
      var key := vipId + ":" + backendId;
      var c := if key in states then states[key] else INITIAL;
      previous := c.state;
      if success {
        c := c.(up := c.up + 1, down := 0);
      } else {
        c := c.(down := c.down + 1, up := 0);
      }
      current := previous;
      match previous {
        case Unknown =>
          if c.up >= rise {
            current := Up;
          } else if c.down >= fall {
            current := Down;
          }
        case Up =>
          if c.down >= fall {
            current := Down;
          }
        case Down =>
          if c.up >= rise {
            current := Up;
          }
      }
      changed := current != previous;
      if changed {
        c := Counters(current, 0, 0);
      }
      states := states[key := c];
    }
  }
}
