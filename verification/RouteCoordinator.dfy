/**
 Route bookkeeping shared by every VIP of the agent: many VIPs can use one address, an address is
 announced while one of them serves it, and a drain suppresses the announcement.
 */
module RouteCoordination {
  import opened Prelude

  type Address = string
  type VipKey = string

  datatype RouteState = RouteState(
    serving: map<VipKey, bool>,
    advertised: bool,
    reconciled: bool,
    drainOwner: VipKey,
    lastVerified: Option<int>)

  const FRESH_STATE := RouteState(map[], false, false, "", None)

  type Addresses = map<Address, RouteState>
  type VipAddresses = map<VipKey, Address>

  datatype Operation = Nothing | Announce | Withdraw

  // --- environment ---

  /** The routing daemon. A call may fail at any time and then has no effect. */
  class Router {
    var announced: set<Address>
    var calls: nat
    var failures: nat

    method AnnounceVIP(a: Address) returns (ok: bool)
      modifies this
      ensures calls == old(calls) + 1 && failures == old(failures) + if ok then 0 else 1
      ensures announced == if ok then old(announced) + {a} else old(announced)
    {
      ok := *;
      calls := calls + 1;
      if ok { announced := announced + {a}; } else { failures := failures + 1; }
    }

    method WithdrawVIP(a: Address) returns (ok: bool)
      modifies this
      ensures calls == old(calls) + 1 && failures == old(failures) + if ok then 0 else 1
      ensures announced == if ok then old(announced) - {a} else old(announced)
    {
      ok := *;
      calls := calls + 1;
      if ok { announced := announced - {a}; } else { failures := failures + 1; }
    }
  }

  /**
   A clock that never runs backwards. Only `stalls` times may more than `tolerance` pass between two
   readings; without such a bound a router slower than the verification interval keeps
   `reconcileRoute` announcing forever.
   */
  class Clock {
    var now: int
    var stalls: nat
    const tolerance: int

    method Now() returns (t: int)
      modifies this
      ensures t == now && old(now) <= now && stalls <= old(stalls)
      ensures now < old(now) + tolerance || stalls < old(stalls) || now == old(now)
    {
      var step :| 0 <= step;
      if step >= tolerance && step > 0 {
        if stalls == 0 { step := 0; } else { stalls := stalls - 1; }
      }
      now := now + step;
      t := now;
    }
  }

  // --- bookkeeping, as values ---

  predicate ShouldAdvertise(st: RouteState) {
    st.drainOwner == "" && exists k :: k in st.serving && st.serving[k]
  }

  /** Some other VIP is serving on the address. */
  predicate PeerServes(st: RouteState, k: VipKey) {
    exists j :: j in st.serving && j != k && st.serving[j]
  }

  function TrackedAddress(v: VipAddresses, k: VipKey): Address {
    if k in v then v[k] else ""
  }

  function ServingAt(m: Addresses, k: VipKey, a: Address): Option<bool> {
    if a in m && k in m[a].serving then Some(m[a].serving[k]) else None
  }

  /** `k` owns the drain of `a`. */
  predicate OwnsDrain(m: Addresses, k: VipKey, a: Address) {
    k != "" && a in m && m[a].drainOwner == k
  }

  /** Owns it and is still listed on the address, so nobody else can clean the entry away. */
  predicate HoldsDrain(m: Addresses, k: VipKey, a: Address) {
    OwnsDrain(m, k, a) && k in m[a].serving
  }

  lemma PeerServesIff(m: Addresses, k: VipKey, a: Address)
    ensures PeerServes(StateOf(m, a), k) <==> exists j :: j != k && ServingAt(m, j, a) == Some(true)
  {
    if j :| j in StateOf(m, a).serving && j != k && StateOf(m, a).serving[j] {
      assert ServingAt(m, j, a) == Some(true);
    }
  }

  /** Another VIP drains the address or, without force, serves on it. */
  ghost predicate Occupied(m: Addresses, k: VipKey, a: Address, force: bool) {
    || StateOf(m, a).drainOwner !in {"", k}
    || (!force && exists j :: j != k && ServingAt(m, j, a) == Some(true))
  }

  lemma OccupiedIff(m: Addresses, m': Addresses, k: VipKey, a: Address, force: bool)
    requires StateOf(m', a) == StateOf(m, a)
    ensures Occupied(m, k, a, force) <==> StateOf(m', a).drainOwner !in {"", k} || (!force && PeerServes(StateOf(m', a), k))
  {
    PeerServesIff(m, k, a);
  }

  /** Everything the coordinator remembers about keys other than `me` is the same before and after. */
  ghost predicate SameForOthers(m: Addresses, v: VipAddresses, m': Addresses, v': VipAddresses, me: VipKey) {
    && (forall k :: k != me ==> TrackedAddress(v, k) == TrackedAddress(v', k))
    && (forall k, a :: k != me ==> ServingAt(m, k, a) == ServingAt(m', k, a))
    && (forall k, a :: k != me ==> HoldsDrain(m, k, a) == HoldsDrain(m', k, a))
    && (forall k, a :: k != me && OwnsDrain(m', k, a) ==> OwnsDrain(m, k, a))
  }

  /** What the entry claims about the router is true. */
  predicate Tracks(st: RouteState, announced: bool) {
    && (st.advertised ==> announced && st.reconciled)
    && (st.reconciled && !st.advertised ==> !announced)
  }

  /** A drained address is known to be withdrawn. */
  predicate DrainIsQuiet(st: RouteState) {
    st.drainOwner != "" ==> st.reconciled && !st.advertised
  }

  /** A key is listed on at most one address, the one `v` names. */
  ghost predicate OneHome(m: Addresses, v: VipAddresses) {
    && "" !in m
    && (forall k :: k in v ==> v[k] != "")
    && (forall a, k :: a in m && k in m[a].serving ==> k in v && v[k] == a)
  }

  function StateOf(m: Addresses, a: Address): RouteState { if a in m then m[a] else FRESH_STATE }

  /** The critical section of removeVIPFromAddress before the router is asked. */
  function Leave(m: Addresses, k: VipKey, a: Address): Addresses {
    if a in m then m[a := m[a].(serving := m[a].serving - {k})] else m
  }

  /** cleanupRouteAddressLocked. */
  function Cleanup(m: Addresses, a: Address): Addresses {
    if a in m && m[a].serving == map[] && !m[a].advertised then m - {a} else m
  }

  /** The critical section of SetServing. */
  function Serve(m: Addresses, k: VipKey, a: Address, serving: bool): Addresses {
    var st := StateOf(m, a);
    m[a := st.(serving := st.serving[k := serving])]
  }

  /** The critical section of beginDrain once the drain may be taken. */
  function StartDrain(m: Addresses, k: VipKey, a: Address): Addresses {
    var st := StateOf(m, a);
    m[a := st.(drainOwner := k, serving := st.serving[k := false])]
  }

  function EndDrain(m: Addresses, a: Address): Addresses
    requires a in m
  {
    m[a := m[a].(drainOwner := "")]
  }

  /** `m'` differs from `m` only in what it believes about the router at `a`. */
  ghost predicate SameBookkeeping(m: Addresses, m': Addresses, a: Address) {
    && m'.Keys == m.Keys
    && (forall b :: b in m && b != a ==> m'[b] == m[b])
    && (a in m ==> m'[a].serving == m[a].serving && m'[a].drainOwner == m[a].drainOwner)
  }

  /**
   `me` went from one bookkeeping to the other: nothing changed for anybody else, every key still has
   one home, and `me` took no drain except possibly the one of `open` ("" for none).
   */
  ghost predicate Moved(m: Addresses, v: VipAddresses, m': Addresses, v': VipAddresses, me: VipKey, open: Address) {
    && SameForOthers(m, v, m', v', me)
    && OneHome(m', v')
    && forall b :: b != open && OwnsDrain(m', me, b) ==> OwnsDrain(m, me, b)
  }

  lemma MovesCompose(m0: Addresses, v0: VipAddresses, m1: Addresses, v1: VipAddresses,
                     m2: Addresses, v2: VipAddresses, me: VipKey, open: Address)
    requires Moved(m0, v0, m1, v1, me, "") || Moved(m0, v0, m1, v1, me, open)
    requires Moved(m1, v1, m2, v2, me, "") || Moved(m1, v1, m2, v2, me, open)
    ensures Moved(m0, v0, m2, v2, me, open)
  {
  }

  /** A change confined to one address that touches only what `k` may touch there. */
  lemma PointMoves(m: Addresses, v: VipAddresses, m': Addresses, v': VipAddresses, k: VipKey, a: Address, open: Address)
    requires OneHome(m, v) && a != ""
    requires forall b :: b != a ==> (b in m' <==> b in m) && (b in m ==> m'[b] == m[b])
    requires forall j :: j != k ==> ServingAt(m', j, a) == ServingAt(m, j, a)
    requires forall j :: j != k ==> TrackedAddress(v', j) == TrackedAddress(v, j)
    requires StateOf(m', a).drainOwner == StateOf(m, a).drainOwner
             || (StateOf(m', a).drainOwner in {"", k} && StateOf(m, a).drainOwner in {"", k})
    requires OwnsDrain(m', k, a) && open != a ==> OwnsDrain(m, k, a)
    requires forall b :: ServingAt(m', k, b).Some? ==> k in v' && v'[k] == b
    requires forall j :: j in v' ==> v'[j] != ""
    ensures Moved(m, v, m', v', k, open)
  {
    forall j, b | j != k
      ensures ServingAt(m', j, b) == ServingAt(m, j, b) && HoldsDrain(m', j, b) == HoldsDrain(m, j, b)
      ensures OwnsDrain(m', j, b) ==> OwnsDrain(m, j, b)
    {
      if b == a {
        assert ServingAt(m', j, a) == ServingAt(m, j, a);
      }
    }
    forall b | b != open && OwnsDrain(m', k, b) ensures OwnsDrain(m, k, b) {
      assert b != a ==> b in m && m'[b] == m[b];
    }
    forall b, j | b in m' && j in m'[b].serving ensures j in v' && v'[j] == b {
      assert ServingAt(m', j, b).Some?;
      if j != k {
        assert ServingAt(m, j, b).Some?;
        assert TrackedAddress(v, j) == b;
      }
    }
  }

  lemma BookkeepingMoves(m: Addresses, v: VipAddresses, m': Addresses, a: Address, me: VipKey)
    requires OneHome(m, v) && SameBookkeeping(m, m', a)
    ensures Moved(m, v, m', v, me, "")
  {
  }

  lemma LeaveMoves(m: Addresses, v: VipAddresses, k: VipKey, a: Address, forget: bool)
    requires OneHome(m, v) && a != "" && (TrackedAddress(v, k) == "" || TrackedAddress(v, k) == a)
    ensures Moved(m, v, Leave(m, k, a), if forget then v - {k} else v, k, "")
    ensures forall b :: ServingAt(Leave(m, k, a), k, b) == None
  {
    PointMoves(m, v, Leave(m, k, a), if forget then v - {k} else v, k, a, "");
  }

  lemma CleanupMoves(m: Addresses, v: VipAddresses, a: Address, me: VipKey)
    requires OneHome(m, v)
    ensures Moved(m, v, Cleanup(m, a), v, me, "")
  {
  }

  lemma ServeMoves(m: Addresses, v: VipAddresses, k: VipKey, a: Address, serving: bool)
    requires OneHome(m, v) && a != "" && (TrackedAddress(v, k) == "" || TrackedAddress(v, k) == a)
    ensures Moved(m, v, Serve(m, k, a, serving), v[k := a], k, "")
  {
    PointMoves(m, v, Serve(m, k, a, serving), v[k := a], k, a, "");
  }

  lemma StartDrainMoves(m: Addresses, v: VipAddresses, k: VipKey, a: Address)
    requires OneHome(m, v) && a != "" && k != "" && (TrackedAddress(v, k) == "" || TrackedAddress(v, k) == a)
    requires StateOf(m, a).drainOwner == "" || StateOf(m, a).drainOwner == k
    ensures Moved(m, v, StartDrain(m, k, a), v[k := a], k, a)
  {
    PointMoves(m, v, StartDrain(m, k, a), v[k := a], k, a, a);
  }

  lemma EndDrainMoves(m: Addresses, v: VipAddresses, k: VipKey, a: Address)
    requires OneHome(m, v) && OwnsDrain(m, k, a)
    ensures Moved(m, v, EndDrain(m, a), v, k, "")
  {
    PointMoves(m, v, EndDrain(m, a), v, k, a, "");
  }

  /** removeVIPFromAddress as a whole, whatever the router answered. */
  lemma RemovalMoves(m: Addresses, v: VipAddresses, k: VipKey, a: Address, reconciled: Addresses, v': VipAddresses)
    requires OneHome(m, v) && a != "" && (TrackedAddress(v, k) == "" || TrackedAddress(v, k) == a)
    requires SameBookkeeping(Leave(m, k, a), reconciled, a) && (v' == v || v' == v - {k})
    ensures Moved(m, v, Cleanup(reconciled, a), v', k, "")
    ensures forall b :: ServingAt(Cleanup(reconciled, a), k, b) == None
  {
    var left := Leave(m, k, a);
    LeaveMoves(m, v, k, a, v' != v);
    BookkeepingMoves(left, v', reconciled, a, k);
    MovesCompose(m, v, left, v', reconciled, v', k, "");
    CleanupMoves(reconciled, v', a, k);
    MovesCompose(m, v, reconciled, v', Cleanup(reconciled, a), v', k, "");
    assert forall b :: ServingAt(reconciled, k, b) == ServingAt(left, k, b);
  }

  /** beginDrain from its critical section on; without the withdrawal the drain is given back. */
  lemma DrainMoves(m: Addresses, v: VipAddresses, k: VipKey, a: Address, reconciled: Addresses, kept: bool)
    requires OneHome(m, v) && a != "" && k != "" && (TrackedAddress(v, k) == "" || TrackedAddress(v, k) == a)
    requires StateOf(m, a).drainOwner == "" || StateOf(m, a).drainOwner == k
    requires SameBookkeeping(StartDrain(m, k, a), reconciled, a)
    ensures Moved(m, v, if kept then reconciled else EndDrain(reconciled, a), v[k := a], k, a)
  {
    var started := StartDrain(m, k, a);
    StartDrainMoves(m, v, k, a);
    BookkeepingMoves(started, v[k := a], reconciled, a, k);
    MovesCompose(m, v, started, v[k := a], reconciled, v[k := a], k, a);
    if !kept {
      EndDrainMoves(reconciled, v[k := a], k, a);
      MovesCompose(m, v, reconciled, v[k := a], EndDrain(reconciled, a), v[k := a], k, a);
    }
  }

  function NextOperation(st: RouteState, now: int, interval: int): Operation {
    if ShouldAdvertise(st) then
      if st.advertised && st.lastVerified.Some? && now < st.lastVerified.value + interval then Nothing else Announce
    else if st.advertised || !st.reconciled then Withdraw
    else Nothing
  }

  function AfterOperation(st: RouteState, op: Operation, at: int): RouteState {
    match op
    case Nothing => st
    case Announce => st.(advertised := true, reconciled := true, lastVerified := Some(at))
    case Withdraw => st.(advertised := false, reconciled := true, lastVerified := None)
  }

  class RouteCoordinator {
    const router: Router?
    const clock: Clock
    const interval: int

    var addresses: Addresses
    var vipAddresses: VipAddresses

    constructor (router: Router?, clock: Clock, interval: int)
      requires clock.tolerance == (if interval <= 0 then 30_000_000 else interval)
      ensures Valid()
      ensures addresses == map[] && vipAddresses == map[]
      ensures this.router == router && this.clock == clock
    {
      this.router, this.clock := router, clock;
      this.interval := if interval <= 0 then 30_000_000 else interval;
      addresses, vipAddresses := map[], map[];
    }

    ghost predicate Announced(a: Address)
      reads router
    {
      router != null && a in router.announced
    }

    ghost predicate Valid()
      reads this, router
    {
      && interval > 0 && clock.tolerance == interval
      && OneHome(addresses, vipAddresses)
      && forall a :: a in addresses ==> Tracks(addresses[a], Announced(a)) && DrainIsQuiet(addresses[a])
    }

    /** The router announces the address exactly when a VIP serves on it and no drain holds it back. */
    ghost predicate Agrees(a: Address)
      reads this, router
    {
      Announced(a) <==> a in addresses && addresses[a].drainOwner == "" && exists k :: k in addresses[a].serving && addresses[a].serving[k]
    }

    /** The route was not confirmed to be up within the last interval. */
    predicate Unverified(a: Address)
      reads this, clock
    {
      a in addresses && (addresses[a].lastVerified.None? || addresses[a].lastVerified.value + interval <= clock.now)
    }

    /** Valid, except that the drain of `open` may still be waiting for its withdrawal. */
    ghost predicate ValidExcept(open: Address)
      reads this, router
    {
      && interval > 0 && clock.tolerance == interval
      && OneHome(addresses, vipAddresses)
      && forall a :: a in addresses ==> Tracks(addresses[a], Announced(a)) && (a != open ==> DrainIsQuiet(addresses[a]))
    }

    /** The router may announce or have forgotten `a`, and nothing else. */
    twostate predicate OnlyRouteChanged(a: Address)
      reads router
    {
      router != null ==> forall b :: b != a ==> (b in router.announced <==> b in old(router.announced))
    }

    /** A call fails exactly when a router call of it fails, and it stops there. */
    twostate predicate FailsWithRouter(ok: bool)
      reads router
    {
      router != null ==> router.failures == old(router.failures) + if ok then 0 else 1
    }

    /** One round of `reconcileRoute`: decide, call the router, record, decide again. */
    method ReconcileOnce(a: Address) returns (settled: bool, advertised: bool, ok: bool)
      requires router != null && ValidExcept(a) && a in addresses
      modifies this`addresses, router, clock
      ensures FailsWithRouter(ok)
      ensures ValidExcept(a)
      ensures a in addresses && addresses == old(addresses)[a := addresses[a]]
      ensures addresses[a].serving == old(addresses)[a].serving && addresses[a].drainOwner == old(addresses)[a].drainOwner
      ensures OnlyRouteChanged(a)
      ensures settled && ok ==> Agrees(a) && DrainIsQuiet(addresses[a]) && advertised == ShouldAdvertise(addresses[a])
      ensures !ok ==> settled && addresses == old(addresses) && router.announced == old(router.announced)
      ensures !settled ==> ok && ShouldAdvertise(addresses[a]) && clock.stalls < old(clock.stalls)
      ensures clock.stalls <= old(clock.stalls)
      ensures ShouldAdvertise(addresses[a]) ==> old(router.announced) <= router.announced
      ensures router.calls >= old(router.calls)
      ensures ShouldAdvertise(addresses[a]) && old(Unverified(a)) ==> router.calls > old(router.calls)
      ensures !ShouldAdvertise(addresses[a]) && old(addresses[a].reconciled && !addresses[a].advertised)
              ==> settled && ok && !advertised && router.calls == old(router.calls) && addresses == old(addresses)
                  && router.announced == old(router.announced)
    {
      var st := addresses[a];
      var now := clock.Now();
      var op := NextOperation(st, now, interval);
      advertised := st.advertised;
      if op == Nothing {
        return true, advertised, true;
      } else if op == Announce {
        ok := router.AnnounceVIP(a);
      } else {
        ok := router.WithdrawVIP(a);
      }
      if !ok {
        return true, advertised, false;
      }
      st := AfterOperation(st, op, now);
      addresses := addresses[a := st];
      var later := clock.Now();
      settled := NextOperation(st, later, interval) == Nothing;
      advertised := st.advertised;
    }

    method ReconcileRoute(a: Address) returns (advertised: bool, ok: bool)
      requires router != null && ValidExcept(a)
      modifies this`addresses, router, clock
      ensures FailsWithRouter(ok)
      ensures ValidExcept(a) && (ok ==> Valid())
      ensures a !in addresses ==> ok && !advertised && addresses == old(addresses) && router.announced == old(router.announced)
      ensures SameBookkeeping(old(addresses), addresses, a)
      ensures OnlyRouteChanged(a)
      ensures ok && a in addresses ==> Agrees(a) && advertised == ShouldAdvertise(addresses[a])
      ensures !ok ==> old(router.announced) <= router.announced && (ShouldAdvertise(addresses[a]) || addresses == old(addresses))
      // An address to announce is announced again once its last confirmation is an interval old.
      ensures a in addresses && ShouldAdvertise(addresses[a]) && old(Unverified(a)) ==> router.calls > old(router.calls)
      // A quiet address that must stay quiet costs no router call, so it cannot fail.
      ensures a in addresses && !ShouldAdvertise(addresses[a]) && old(addresses[a].reconciled && !addresses[a].advertised)
              ==> ok && !advertised && router.calls == old(router.calls) && addresses == old(addresses)
                  && router.announced == old(router.announced)
    {
      if a !in addresses {
        return false, true;
      }
      var settled;
      settled, advertised, ok := ReconcileOnce(a);
      while !settled
        invariant ValidExcept(a) && a in addresses
        invariant addresses == old(addresses)[a := addresses[a]]
        invariant addresses[a].serving == old(addresses)[a].serving && addresses[a].drainOwner == old(addresses)[a].drainOwner
        invariant OnlyRouteChanged(a) && FailsWithRouter(ok)
        invariant ShouldAdvertise(addresses[a]) && old(Unverified(a)) ==> router.calls > old(router.calls)
        invariant settled && ok ==> Agrees(a) && DrainIsQuiet(addresses[a]) && advertised == ShouldAdvertise(addresses[a])
        invariant !settled ==> ShouldAdvertise(addresses[a]) && old(router.announced) <= router.announced
        invariant !ok ==> settled && old(router.announced) <= router.announced
                          && (ShouldAdvertise(addresses[a]) || addresses == old(addresses))
        invariant !ShouldAdvertise(addresses[a]) && old(addresses[a].reconciled && !addresses[a].advertised)
                  ==> settled && ok && !advertised && router.calls == old(router.calls) && addresses == old(addresses)
                      && router.announced == old(router.announced)
        decreases !settled, clock.stalls
      {
        settled, advertised, ok := ReconcileOnce(a);
      }
    }

    /** Whether `RemoveVIPFromAddress` acts at all: the key is not known to live elsewhere. */
    predicate MayLeave(k: VipKey, a: Address)
      reads this
    {
      TrackedAddress(vipAddresses, k) == "" || TrackedAddress(vipAddresses, k) == a
    }

    /** removeVIPFromAddress up to the router's answer. */
    method LeaveAddress(k: VipKey, a: Address) returns (advertised: bool, ok: bool)
      requires router != null && Valid() && a != "" && MayLeave(k, a)
      modifies this`addresses, router, clock
      ensures FailsWithRouter(ok)
      ensures Valid() && OnlyRouteChanged(a) && SameBookkeeping(Leave(old(addresses), k, a), addresses, a)
      ensures a !in old(addresses) ==> ok && a !in addresses && router.announced == old(router.announced)
      ensures ok && a in addresses ==> Agrees(a)
      ensures !ok ==> old(router.announced) <= router.announced
      ensures !ok ==> a in addresses && (addresses[a].serving != map[] || addresses[a].advertised == old(StateOf(addresses, a).advertised))
    {
      addresses := Leave(addresses, k, a);
      assert OneHome(addresses, vipAddresses) by { LeaveMoves(old(addresses), vipAddresses, k, a, false); }
      advertised, ok := ReconcileRoute(a);
    }

    method CleanupAddress(a: Address)
      requires Valid()
      modifies this`addresses
      ensures addresses == Cleanup(old(addresses), a) && Valid() && EntriesKept(a)
      ensures Agrees(a) == old(Agrees(a))
    {
      assert OneHome(Cleanup(addresses, a), vipAddresses) by { CleanupMoves(addresses, vipAddresses, a, ""); }
      addresses := Cleanup(addresses, a);
    }

    method RemoveVIPFromAddress(k: VipKey, a: Address) returns (advertised: bool, ok: bool)
      requires router != null && Valid() && a != ""
      modifies this, router, clock
      ensures FailsWithRouter(ok)
      ensures Valid()
      ensures Moved(old(addresses), old(vipAddresses), addresses, vipAddresses, k, "")
      ensures OnlyRouteChanged(a)
      // A key that lives elsewhere is left alone.
      ensures !old(MayLeave(k, a)) ==> ok && !advertised && addresses == old(addresses) && vipAddresses == old(vipAddresses)
                                       && router.announced == old(router.announced) && router.calls == old(router.calls)
      ensures old(MayLeave(k, a)) ==>
                && (forall b :: ServingAt(addresses, k, b) == None)
                && vipAddresses == (if ok then old(vipAddresses) - {k} else old(vipAddresses))
                && (ok ==> (Agrees(a) <==> old(a in addresses || !Announced(a))))
                && (a !in old(addresses) ==> ok && a !in addresses && router.announced == old(router.announced))
      ensures EntriesKept(a)
      ensures !ok ==> old(router.announced) <= router.announced
      ensures !ok && a in addresses ==> addresses[a].serving != map[] || old(StateOf(addresses, a).advertised)
    {
      if !MayLeave(k, a) {
        BookkeepingMoves(addresses, vipAddresses, addresses, a, k);
        return false, true;
      }
      advertised, ok := LeaveAddress(k, a);
      RemovalMoves(old(addresses), old(vipAddresses), k, a, addresses, if ok then vipAddresses - {k} else vipAddresses);
      CleanupAddress(a);
      if ok {
        vipAddresses := vipAddresses - {k};
      }
    }

    /**
     What a VIP that moved to `a` left behind: at its previous address the router agrees, unless the
     route was up there without an entry.
     */
    twostate predicate LeftBehind(k: VipKey, a: Address)
      reads this, router
    {
      !old(MayLeave(k, a)) ==>
        var previous := TrackedAddress(old(vipAddresses), k);
        Agrees(previous) <==> old(previous in addresses || !Announced(previous))
    }

    /** The router's view of addresses other than `a` and the previous one did not change. */
    twostate predicate OtherRoutesKept(k: VipKey, a: Address)
      reads router
    {
      router != null ==>
        forall b :: b != a && b != TrackedAddress(old(vipAddresses), k) ==> (b in router.announced <==> b in old(router.announced))
    }

    /** What is remembered of addresses other than `a` did not change. */
    twostate predicate EntriesKept(a: Address)
      reads this
    {
      forall b :: b != a ==> (b in addresses <==> b in old(addresses)) && (b in addresses ==> addresses[b] == old(addresses)[b])
    }

    twostate lemma AgreementElsewhere(a: Address)
      requires EntriesKept(a) && OnlyRouteChanged(a) && Agrees(a)
      ensures AgreementKept()
    {
    }

    /** Wherever the router agreed with the bookkeeping, it still does. */
    twostate predicate AgreementKept()
      reads this, router
    {
      forall b :: old(Agrees(b)) ==> Agrees(b)
    }

    /** The start of SetServing and beginDrain: a VIP that moves here first leaves its previous address. */
    method LeavePreviousAddress(k: VipKey, a: Address) returns (ok: bool)
      requires router != null && Valid()
      modifies this, router, clock
      ensures FailsWithRouter(ok)
      ensures Valid() && (ok ==> MayLeave(k, a))
      ensures Moved(old(addresses), old(vipAddresses), addresses, vipAddresses, k, "")
      ensures old(MayLeave(k, a)) ==> ok && addresses == old(addresses) && vipAddresses == old(vipAddresses)
                                      && router.announced == old(router.announced) && router.calls == old(router.calls)
      ensures OtherRoutesKept(k, a) && (ok ==> LeftBehind(k, a) && AgreementKept())
      ensures StateOf(addresses, a) == old(StateOf(addresses, a)) && Announced(a) == old(Announced(a))
      ensures !old(MayLeave(k, a)) ==> forall b :: ServingAt(addresses, k, b) == None
    {
      ok := true;
      if !MayLeave(k, a) {
        var advertised;
        advertised, ok := RemoveVIPFromAddress(k, TrackedAddress(vipAddresses, k));
      } else {
        BookkeepingMoves(addresses, vipAddresses, addresses, a, k);
      }
    }

    /** SetServing for a VIP that is not listed elsewhere. */
    method ServeHere(k: VipKey, a: Address, serving: bool) returns (advertised: bool, ok: bool)
      requires Valid() && router != null && a != "" && MayLeave(k, a)
      modifies this, router, clock
      ensures FailsWithRouter(ok)
      ensures Valid()
      ensures Moved(old(addresses), old(vipAddresses), addresses, vipAddresses, k, "")
      ensures vipAddresses == old(vipAddresses)[k := a] && SameBookkeeping(Serve(old(addresses), k, a, serving), addresses, a)
      ensures OnlyRouteChanged(a) && EntriesKept(a)
      ensures ok ==> Agrees(a) && advertised == ShouldAdvertise(addresses[a])
      ensures old(StateOf(addresses, a).drainOwner) != "" ==>
                ok && !advertised && router.calls == old(router.calls) && router.announced == old(router.announced)
      ensures !ok && !ShouldAdvertise(addresses[a]) ==>
                addresses == Serve(old(addresses), k, a, serving) && old(router.announced) <= router.announced
    {
      addresses, vipAddresses := Serve(addresses, k, a, serving), vipAddresses[k := a];
      assert OneHome(addresses, vipAddresses) by { ServeMoves(old(addresses), old(vipAddresses), k, a, serving); }
      ghost var served := addresses;
      advertised, ok := ReconcileRoute(a);
      assert Moved(old(addresses), old(vipAddresses), addresses, vipAddresses, k, "") by {
        ServeMoves(old(addresses), old(vipAddresses), k, a, serving);
        BookkeepingMoves(served, vipAddresses, addresses, a, k);
        MovesCompose(old(addresses), old(vipAddresses), served, vipAddresses, addresses, vipAddresses, k, "");
      }
    }

    method SetServing(k: VipKey, a: Address, serving: bool) returns (advertised: bool, ok: bool)
      requires Valid()
      modifies this, router, clock
      ensures FailsWithRouter(ok)
      ensures Valid()
      ensures Moved(old(addresses), old(vipAddresses), addresses, vipAddresses, k, "")
      ensures router == null || a == "" ==> ok && !advertised && addresses == old(addresses) && vipAddresses == old(vipAddresses)
      ensures router != null && a != "" && (ok || old(MayLeave(k, a))) ==>
                TrackedAddress(vipAddresses, k) == a && ServingAt(addresses, k, a) == Some(serving)
      ensures router != null && a != "" && ok ==> Agrees(a) && advertised == ShouldAdvertise(addresses[a]) && LeftBehind(k, a)
      ensures ok ==> AgreementKept()
      ensures OtherRoutesKept(k, a)
      ensures router != null && a != "" && old(MayLeave(k, a)) ==>
                SameBookkeeping(Serve(old(addresses), k, a, serving), addresses, a)
      // While the address is drained this only updates bookkeeping: no router call, hence no failure.
      ensures router != null && a != "" && old(MayLeave(k, a)) && old(StateOf(addresses, a).drainOwner) != "" ==>
                ok && !advertised && router.calls == old(router.calls) && router.announced == old(router.announced)
      ensures !ok && old(MayLeave(k, a)) && !ShouldAdvertise(addresses[a]) ==>
                addresses == Serve(old(addresses), k, a, serving) && old(router.announced) <= router.announced
    {
      if router == null || a == "" {
        BookkeepingMoves(addresses, vipAddresses, addresses, a, k);
        return false, true;
      }
      var left := LeavePreviousAddress(k, a);
      if !left {
        return false, false;
      }
      ghost var m, v, previous := addresses, vipAddresses, TrackedAddress(old(vipAddresses), k);
      ghost var agreed := Agrees(previous);
      label left:
      advertised, ok := ServeHere(k, a, serving);
      if ok {
        AgreementElsewhere@left(a);
      }
      MovesCompose(old(addresses), old(vipAddresses), m, v, addresses, vipAddresses, k, "");
      assert previous != a ==> Agrees(previous) == agreed;
    }

    /** Own the drain and have the route withdrawn; the caller gives the drain back if that fails. */
    method WithdrawForDrain(k: VipKey, a: Address) returns (advertised: bool, ok: bool)
      requires Valid() && router != null && k != "" && a != "" && MayLeave(k, a)
      requires StateOf(addresses, a).drainOwner == "" || StateOf(addresses, a).drainOwner == k
      modifies this, router, clock
      ensures FailsWithRouter(ok)
      ensures ValidExcept(a) && (ok ==> Valid()) && vipAddresses == old(vipAddresses)[k := a]
      ensures SameBookkeeping(StartDrain(old(addresses), k, a), addresses, a)
      ensures OwnsDrain(addresses, k, a) && ServingAt(addresses, k, a) == Some(false)
      ensures OnlyRouteChanged(a) && EntriesKept(a)
      ensures ok ==> !advertised && !Announced(a) && Agrees(a)
      ensures old(OwnsDrain(addresses, k, a)) ==> ok
    {
      addresses, vipAddresses := StartDrain(addresses, k, a), vipAddresses[k := a];
      assert OneHome(addresses, vipAddresses) by { StartDrainMoves(old(addresses), old(vipAddresses), k, a); }
      advertised, ok := ReconcileRoute(a);
    }

    method GiveDrainBack(k: VipKey, a: Address)
      requires ValidExcept(a) && OwnsDrain(addresses, k, a)
      modifies this`addresses
      ensures Valid() && EntriesKept(a) && addresses == EndDrain(old(addresses), a)
      ensures !OwnsDrain(addresses, k, a) && ServingAt(addresses, k, a) == old(ServingAt(addresses, k, a))
    {
      assert OneHome(EndDrain(addresses, a), vipAddresses) by { EndDrainMoves(addresses, vipAddresses, k, a); }
      addresses := EndDrain(addresses, a);
    }

    /** The end of beginDrain: own the drain, have the route withdrawn, or give the drain back. */
    method TakeDrain(k: VipKey, a: Address) returns (drained: bool, ok: bool)
      requires Valid() && router != null && k != "" && a != "" && MayLeave(k, a)
      requires StateOf(addresses, a).drainOwner == "" || StateOf(addresses, a).drainOwner == k
      modifies this, router, clock
      ensures FailsWithRouter(ok)
      ensures Valid()
      ensures Moved(old(addresses), old(vipAddresses), addresses, vipAddresses, k, a)
      ensures drained == ok && TrackedAddress(vipAddresses, k) == a && ServingAt(addresses, k, a) == Some(false)
      ensures ok <==> OwnsDrain(addresses, k, a)
      ensures OnlyRouteChanged(a)
      ensures EntriesKept(a)
      ensures ok ==> !Announced(a) && Agrees(a)
      ensures old(OwnsDrain(addresses, k, a)) ==> ok
    {
      var advertised;
      advertised, ok := WithdrawForDrain(k, a);
      drained := ok && !advertised;
      assert Moved(old(addresses), old(vipAddresses), if ok then addresses else EndDrain(addresses, a), vipAddresses, k, a) by {
        DrainMoves(old(addresses), old(vipAddresses), k, a, addresses, ok);
      }
      if !ok {
        GiveDrainBack(k, a);
      }
    }

    /** BeginDrain (`force` false) and BeginAddressDrain (`force` true). */
    method BeginDrain(k: VipKey, a: Address, force: bool) returns (drained: bool, ok: bool)
      requires Valid() && k != ""
      modifies this, router, clock
      ensures FailsWithRouter(ok)
      ensures Valid()
      ensures Moved(old(addresses), old(vipAddresses), addresses, vipAddresses, k, a)
      ensures router == null || a == "" ==> drained && ok && addresses == old(addresses) && vipAddresses == old(vipAddresses)
      ensures router != null && a != "" && drained ==>
                && ok && OwnsDrain(addresses, k, a) && !Announced(a)
                && TrackedAddress(vipAddresses, k) == a && ServingAt(addresses, k, a) == Some(false)
      ensures router != null && a != "" && ok ==> (!drained <==> Occupied(old(addresses), k, a, force))
      ensures router != null && a != "" && ok && !drained && old(MayLeave(k, a)) ==>
                addresses == old(addresses) && vipAddresses == old(vipAddresses)
      // Otherwise a refusal changes nothing but that the VIP left its previous address.
      ensures router != null && a != "" && ok && !drained ==>
                StateOf(addresses, a) == old(StateOf(addresses, a)) && Announced(a) == old(Announced(a))
      ensures ok ==> AgreementKept()
      ensures router != null && a != "" && ok ==> LeftBehind(k, a)
      ensures OtherRoutesKept(k, a)
      ensures router != null && a != "" && !ok && old(MayLeave(k, a)) ==> ServingAt(addresses, k, a) == Some(false)
      ensures router != null && a != "" && old(MayLeave(k, a)) ==>
                MayLeave(k, a) && (!ok ==> !OwnsDrain(addresses, k, a) && !old(OwnsDrain(addresses, k, a)))
    {
      if router == null || a == "" {
        BookkeepingMoves(addresses, vipAddresses, addresses, a, k);
        return true, true;
      }
      var left := LeavePreviousAddress(k, a);
      if !left {
        return false, false;
      }
      OccupiedIff(old(addresses), addresses, k, a, force);
      if StateOf(addresses, a).drainOwner != "" && StateOf(addresses, a).drainOwner != k {
        return false, true;
      }
      if !force && PeerServes(StateOf(addresses, a), k) {
        return false, true;
      }
      ghost var m, v, previous := addresses, vipAddresses, TrackedAddress(old(vipAddresses), k);
      ghost var agreed := Agrees(previous);
      label left:
      drained, ok := TakeDrain(k, a);
      if ok {
        AgreementElsewhere@left(a);
      }
      assert previous != a ==> Agrees(previous) == agreed;
      MovesCompose(old(addresses), old(vipAddresses), m, v, addresses, vipAddresses, k, a);
    }

    method FinishDrain(k: VipKey, a: Address) returns (advertised: bool, ok: bool)
      requires Valid() && k != ""
      modifies this, router, clock
      ensures FailsWithRouter(ok)
      ensures Valid()
      ensures Moved(old(addresses), old(vipAddresses), addresses, vipAddresses, k, "")
      ensures vipAddresses == old(vipAddresses)
      ensures router == null || a == "" ==> ok && !advertised && addresses == old(addresses)
      ensures router != null && a != "" ==> !OwnsDrain(addresses, k, a)
      ensures router != null && a != "" && old(OwnsDrain(addresses, k, a)) ==>
                SameBookkeeping(EndDrain(old(addresses), a), addresses, a)
      // The owner's call reconciles; anybody else's call leaves agreement as it found it.
      ensures router != null && a != "" && ok ==> (Agrees(a) <==> old(OwnsDrain(addresses, k, a) || Agrees(a)))
      ensures ok ==> AgreementKept()
      ensures router != null && a != "" && !old(OwnsDrain(addresses, k, a)) ==>
                ok && addresses == old(addresses) && router.announced == old(router.announced)
                && advertised == (a in addresses && addresses[a].advertised)
    {
      if router == null || a == "" || a !in addresses || addresses[a].drainOwner != k {
        BookkeepingMoves(addresses, vipAddresses, addresses, a, k);
        return router != null && a != "" && a in addresses && addresses[a].advertised, true;
      }
      addresses := EndDrain(addresses, a);
      assert OneHome(addresses, vipAddresses) by { EndDrainMoves(old(addresses), vipAddresses, k, a); }
      ghost var ended := addresses;
      advertised, ok := ReconcileRoute(a);
      assert Moved(old(addresses), vipAddresses, addresses, vipAddresses, k, "") by {
        EndDrainMoves(old(addresses), vipAddresses, k, a);
        BookkeepingMoves(ended, vipAddresses, addresses, a, k);
        MovesCompose(old(addresses), vipAddresses, ended, vipAddresses, addresses, vipAddresses, k, "");
      }
    }

    method PendingAddressChange(k: VipKey, a: Address) returns (previous: Address, pending: bool)
      ensures pending <==> router != null && a != "" && !MayLeave(k, a)
      ensures pending ==> previous == TrackedAddress(vipAddresses, k)
    {
      if router == null || a == "" {
        return "", false;
      }
      previous := TrackedAddress(vipAddresses, k);
      pending := previous != "" && previous != a;
    }

    method PrepareAddressChange(k: VipKey, a: Address) returns (advertised: bool, ok: bool)
      requires Valid()
      modifies this, router, clock
      ensures FailsWithRouter(ok)
      ensures Valid()
      ensures Moved(old(addresses), old(vipAddresses), addresses, vipAddresses, k, "")
      ensures router != null && a != "" && ok ==> MayLeave(k, a)
      ensures router == null || a == "" || old(MayLeave(k, a)) ==>
                ok && addresses == old(addresses) && vipAddresses == old(vipAddresses)
      ensures router != null && a != "" && ok ==> LeftBehind(k, a)
      ensures ok ==> AgreementKept()
      ensures OtherRoutesKept(k, a)
      ensures router != null && a != "" && !old(MayLeave(k, a)) ==> forall b :: ServingAt(addresses, k, b) == None
    {
      if router == null || a == "" || MayLeave(k, a) {
        BookkeepingMoves(addresses, vipAddresses, addresses, a, k);
        return router != null && a != "" && a in addresses && addresses[a].advertised, true;
      }
      advertised, ok := RemoveVIPFromAddress(k, TrackedAddress(vipAddresses, k));
      advertised := !ok && advertised;
    }

    /** The address a delete works on: the tracked one, or the one in the deleted object. */
    function DeleteTarget(k: VipKey, a: Address): Address
      reads this
    {
      var tracked := TrackedAddress(vipAddresses, k);
      if tracked != "" then tracked else a
    }

    method Delete(k: VipKey, a: Address) returns (ok: bool)
      requires Valid()
      modifies this, router, clock
      ensures FailsWithRouter(ok)
      ensures Valid()
      ensures Moved(old(addresses), old(vipAddresses), addresses, vipAddresses, k, "")
      ensures router == null || old(DeleteTarget(k, a)) == "" ==> ok && addresses == old(addresses) && vipAddresses == old(vipAddresses)
      ensures ok ==> AgreementKept()
      ensures var target := old(DeleteTarget(k, a));
              router != null && target != "" ==>
                && (forall b :: ServingAt(addresses, k, b) == None)
                && vipAddresses == (if ok then old(vipAddresses) - {k} else old(vipAddresses))
                // Success means the router agrees, unless the entry was already gone while the route was up.
                && (ok ==> (Agrees(target) <==> old(target in addresses || !Announced(target))))
                && (target !in old(addresses) ==> ok && target !in addresses && router.announced == old(router.announced))
                && (!ok ==> old(router.announced) <= router.announced)
                && (!ok && target in addresses ==> addresses[target].serving != map[] || old(StateOf(addresses, target).advertised))
    {
      var target := DeleteTarget(k, a);
      if router == null || target == "" {
        BookkeepingMoves(addresses, vipAddresses, addresses, a, k);
        return true;
      }
      var advertised;
      advertised, ok := RemoveVIPFromAddress(k, target);
    }
  }

  /**
   The exception in `Delete` is reachable. The route of `a` is still up from before a restart and
   withdrawing fails twice, first for the VIP and then for its deletion: the failed deletion drops
   the entry, so the retry succeeds without ever withdrawing the route.
   */
  method RetriedDeleteForgetsTheRoute(router: Router, clock: Clock, k: VipKey, a: Address)
      returns (served: bool, deleted: bool, retried: bool, stillAnnounced: bool)
    requires clock.tolerance == 30_000_000 && a != "" && a in router.announced
    modifies router, clock
    ensures !served && !deleted ==> retried && stillAnnounced
  {
    var c := new RouteCoordinator(router, clock, 0);
    var advertised;
    advertised, served := c.SetServing(k, a, false);
    ghost var m := c.addresses;
    deleted := c.Delete(k, a);
    assert !served && !deleted ==> forall j :: ServingAt(c.addresses, j, a) == if j == k then None else ServingAt(m, j, a);
    assert !served && !deleted && a in c.addresses ==> forall j :: j in c.addresses[a].serving ==> ServingAt(c.addresses, j, a).Some?;
    retried := c.Delete(k, a);
    stillAnnounced := a in router.announced;
  }

  /** Somebody who owns no drain can finish one: it succeeds, and a route that nobody serves stays announced. */
  method StrangersFinishReconcilesNothing(router: Router, clock: Clock, k: VipKey, a: Address) returns (ok: bool, stillAnnounced: bool)
    requires clock.tolerance == 30_000_000 && k != "" && a != "" && a in router.announced
    modifies router, clock
    ensures ok && stillAnnounced
  {
    var c := new RouteCoordinator(router, clock, 0);
    var advertised;
    advertised, ok := c.FinishDrain(k, a);
    stillAnnounced := a in router.announced;
  }

  /**
   What a reconcile that drained, repaired and gave its drain back early does last: it publishes the VIP and
   finishes a drain it no longer owns. If another VIP's withdrawal fails in between, the finish reports
   success while a route that nobody serves stays announced.
   */
  method LateFinishHidesAFailure(router: Router, clock: Clock, k: VipKey, sibling: VipKey, a: Address)
      returns (served: bool, published: bool, stopped: bool, finished: bool, stillAnnounced: bool)
    requires clock.tolerance == 30_000_000 && k != "" && sibling != "" && k != sibling && a != ""
    modifies router, clock
    ensures served && published && !stopped ==> finished && stillAnnounced
  {
    var c := new RouteCoordinator(router, clock, 0);
    served, published := SharePublished(c, k, sibling, a);
    stopped, finished, stillAnnounced := false, false, false;
    if served && published {
      var advertised;
      advertised, stopped := c.SetServing(sibling, a, false);
      assert c.addresses[a].serving == map[sibling := false, k := false];
      advertised, finished := c.FinishDrain(k, a);
      stillAnnounced := a in router.announced;
    }
  }

  /** A sibling serves the address and `k` is listed there without healthy backends. */
  method SharePublished(c: RouteCoordinator, k: VipKey, sibling: VipKey, a: Address) returns (served: bool, published: bool)
    requires c.Valid() && c.router != null && c.addresses == map[] && c.vipAddresses == map[]
    requires k != "" && sibling != "" && k != sibling && a != ""
    modifies c, c.router, c.clock
    ensures c.Valid()
    ensures served && published ==>
              && a in c.addresses && c.addresses[a].serving == map[sibling := true, k := false] && c.addresses[a].drainOwner == ""
              && c.MayLeave(sibling, a) && c.Announced(a)
  {
    var advertised;
    advertised, served := c.SetServing(sibling, a, true);
    published := false;
    if served {
      advertised, published := c.SetServing(k, a, false);
      assert c.addresses[a].serving == map[sibling := true, k := false];
      assert c.addresses[a].serving[sibling];
    }
  }
}
