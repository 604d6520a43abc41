/**
 One VIP's reconciliation: drain, apply, repair tuning drift, publish. Every call to the router, the
 dataplane, the local store, the rollout coordinator and the context may fail, and between any two
 calls the reconcilers of other VIPs run theirs.
 */
module VipReconciliation {
  import opened Prelude
  import opened RouteCoordination

  /**
   What was asked of the dataplane, whether the route of the address was withdrawn at that moment, and
   whether the call worked. A recreate that failed also tells whether the old VIP is still there
   (`safe`). For a removal, whether the router agreed with the bookkeeping when the VIP's route had been
   deleted.
   */
  datatype Effect =
    | Applied(plannedDrain: bool, withdrawn: bool, ok: bool)
    | Recreated(withdrawn: bool, ok: bool, safe: bool)
    | Removal(routeSettled: bool, ok: bool)

  /** A disruptive dataplane change happened only behind a withdrawn route. */
  predicate Undisruptive(e: Effect) {
    match e
    case Applied(planned, withdrawn, _) => planned ==> withdrawn
    case Recreated(withdrawn, _, _) => withdrawn
    case Removal(_, _) => true
  }

  datatype Outcome =
    | PersistFailed
    | RouteChangeFailed
    | DrainFailed
    | DrainRefused
    | DrainInterrupted
    | ApplyFailed
    | CommitFailed
    | RepairBlocked
    | RepairFailed(retainedOldVIP: bool)
    | Reconciled(advertised: bool, routeOk: bool)

  datatype Repair = Repair(blocked: bool, drainReleased: bool, retainedOldVIP: bool, routeAdvertised: bool, routeFailed: bool)

  const NO_REPAIR := Repair(false, false, false, false, false)

  /** What bookkeeping says about one key, untouched by others. */
  ghost predicate SameForMe(m: Addresses, v: VipAddresses, m': Addresses, v': VipAddresses, me: VipKey) {
    && TrackedAddress(v', me) == TrackedAddress(v, me)
    && (forall a :: ServingAt(m', me, a) == ServingAt(m, me, a))
    && (forall a :: HoldsDrain(m', me, a) == HoldsDrain(m, me, a))
    && (forall a :: OwnsDrain(m', me, a) ==> OwnsDrain(m, me, a))
  }

  class VipReconciler {
    const key: VipKey
    const routes: RouteCoordinator
    const hasRollouts: bool
    const canRecreate: bool
    const preserveDrift: bool

    /** Pending intent and last applied configuration in the local store. */
    var pending: bool
    var committed: bool

    ghost var trace: seq<Effect>

    constructor (key: VipKey, routes: RouteCoordinator, hasRollouts: bool, canRecreate: bool, preserveDrift: bool)
      requires key != "" && routes.Valid() && forall a :: !OwnsDrain(routes.addresses, key, a)
      ensures Valid() && fresh(this) && this.routes == routes && this.key == key && trace == []
    {
      this.key, this.routes := key, routes;
      this.hasRollouts, this.canRecreate, this.preserveDrift := hasRollouts, canRecreate, preserveDrift;
      pending, committed, trace := false, false, [];
    }

    ghost predicate NoDrain()
      reads routes
    {
      forall a :: !OwnsDrain(routes.addresses, key, a)
    }

    /** Between two reconciliations this VIP owns no drain. */
    ghost predicate Valid()
      reads this, routes, routes.router
    {
      key != "" && routes.Valid() && NoDrain()
    }

    /** The coordinator does nothing without a router or an address. */
    predicate Inert(a: Address) { routes.router == null || a == "" }

    ghost predicate Withdrawn(a: Address)
      reads routes, routes.router
    {
      a == "" || !routes.Announced(a)
    }

    /** This VIP holds the drain of `a` and no other. */
    ghost predicate Draining(a: Address)
      reads routes
    {
      if Inert(a) then NoDrain()
      else
        && HoldsDrain(routes.addresses, key, a) && TrackedAddress(routes.vipAddresses, key) == a
        && ServingAt(routes.addresses, key, a) == Some(false)
        && forall b :: b != a ==> !OwnsDrain(routes.addresses, key, b)
    }

    /** The VIP is not tracked under another address. */
    ghost predicate AtHome(a: Address)
      reads routes
    {
      Inert(a) || routes.MayLeave(key, a)
    }

    /** How this VIP is listed on `a`, when the coordinator lists anything. */
    ghost predicate ListedAs(a: Address, serving: bool)
      reads routes
    {
      Inert(a) || ServingAt(routes.addresses, key, a) == Some(serving)
    }

    /** This VIP counts as serving on `a`. */
    ghost predicate Serves(a: Address)
      reads routes
    {
      !Inert(a) && ServingAt(routes.addresses, key, a) == Some(true)
    }

    /** This VIP is listed as before. */
    twostate predicate ListingKept()
      reads routes
    {
      forall b :: ServingAt(routes.addresses, key, b) == old(ServingAt(routes.addresses, key, b))
    }

    lemma DrainingIsWithdrawn(a: Address)
      requires routes.Valid() && Draining(a)
      ensures Withdrawn(a)
    {
    }

    /** How many router calls have failed so far. */
    ghost function Failures(): nat
      reads routes.router
    {
      if routes.router == null then 0 else routes.router.failures
    }

    /** One call by the reconciler of another VIP. */
    method SiblingCall(sibling: VipKey, a: Address, flag: bool, choice: int) returns (ok: bool)
      requires routes.Valid() && sibling != key && sibling != ""
      modifies routes, routes.router, routes.clock
      ensures routes.Valid()
      ensures SameForMe(old(routes.addresses), old(routes.vipAddresses), routes.addresses, routes.vipAddresses, key)
      ensures Failures() == old(Failures()) + (if ok then 0 else 1) && (ok ==> routes.AgreementKept())
    {
      var answer;
      if choice == 0 {
        answer, ok := routes.SetServing(sibling, a, flag);
      } else if choice == 1 {
        answer, ok := routes.BeginDrain(sibling, a, flag);
      } else if choice == 2 {
        answer, ok := routes.FinishDrain(sibling, a);
      } else if choice == 3 {
        answer, ok := routes.PrepareAddressChange(sibling, a);
      } else {
        ok := routes.Delete(sibling, a);
      }
    }

    /** Any number of complete calls by reconcilers of other VIPs. */
    method SiblingsRun()
      requires routes.Valid()
      modifies routes, routes.router, routes.clock
      ensures routes.Valid()
      ensures SameForMe(old(routes.addresses), old(routes.vipAddresses), routes.addresses, routes.vipAddresses, key)
      ensures Failures() >= old(Failures()) && (Failures() == old(Failures()) ==> routes.AgreementKept())
    {
      var calls :| calls >= 0;
      while calls > 0
        invariant routes.Valid()
        invariant SameForMe(old(routes.addresses), old(routes.vipAddresses), routes.addresses, routes.vipAddresses, key)
        invariant Failures() >= old(Failures()) && (Failures() == old(Failures()) ==> routes.AgreementKept())
      {
        var sibling: VipKey := *;
        var a: Address := *;
        var flag: bool := *;
        var choice: int := *;
        if sibling != key && sibling != "" {
          var _ := SiblingCall(sibling, a, flag, choice);
        }
        calls := calls - 1;
      }
    }

    /** The dataplane call, remembered together with the state of the route. */
    method ApplyVIP(a: Address, plannedDrain: bool) returns (ok: bool)
      modifies this`trace
      ensures trace == old(trace) + [Applied(plannedDrain, Withdrawn(a), ok)]
    {
      ok := *;
      trace := trace + [Applied(plannedDrain, Withdrawn(a), ok)];
    }

    method RecreateVIP(a: Address) returns (ok: bool, routeSafeToRestore: bool)
      modifies this`trace
      ensures trace == old(trace) + [Recreated(Withdrawn(a), ok, routeSafeToRestore)]
    {
      ok, routeSafeToRestore := *, *;
      trace := trace + [Recreated(Withdrawn(a), ok, routeSafeToRestore)];
    }

    /**
     How a recreate leaves the VIP before it is published again: as serving if and only if it failed, the
     VIP has healthy backends and the dataplane called it safe to restore the route.
     */
    ghost predicate AfterRecreate(e: Effect, a: Address, hasHealthy: bool)
      reads routes
    {
      e.Recreated? && e.withdrawn && ListedAs(a, !e.ok && e.safe && hasHealthy)
    }

    /** One recreate since the trace was `before`. */
    ghost predicate RecreatedOnce(before: seq<Effect>, a: Address, hasHealthy: bool)
      reads this`trace, routes
    {
      |trace| == |before| + 1 && before <= trace && AfterRecreate(trace[|before|], a, hasHealthy)
    }

    /** A recreate that failed while the old VIP is still in place, for a VIP that has healthy backends. */
    predicate KeepsOldVIP(e: Effect, hasHealthy: bool) { e.Recreated? && !e.ok && e.safe && hasHealthy }

    /** The old VIP is reported as retained exactly when it is, and its route is back and known to be up. */
    ghost predicate Reports(r: Repair, before: seq<Effect>, a: Address, hasHealthy: bool)
      reads this`trace, routes, routes.router
    {
      && (r.retainedOldVIP <==> |trace| > |before| && KeepsOldVIP(trace[|before|], hasHealthy) && !r.routeFailed && r.routeAdvertised)
      && (r.retainedOldVIP && !Inert(a) ==> routes.Agrees(a))
    }

    method ReleaseUpdateDrain(a: Address, serving: bool) returns (advertised: bool, ok: bool)
      requires key != "" && routes.Valid() && Draining(a)
      modifies routes, routes.router, routes.clock
      ensures Failures() >= old(Failures())
      ensures routes.Valid() && NoDrain() && AtHome(a) && ListedAs(a, serving)
      ensures ok && !Inert(a) ==> routes.Agrees(a)
    {
      advertised, ok := routes.SetServing(key, a, serving);
      if !ok {
        return;
      }
      assert Inert(a) || HoldsDrain(routes.addresses, key, a);
      SiblingsRun();
      assert Inert(a) || HoldsDrain(routes.addresses, key, a);
      advertised, ok := routes.FinishDrain(key, a);
    }

    /** Recreate behind the held drain and give it back, restoring the old VIP's route only if that is safe. */
    method RecreateAndRelease(a: Address, hasHealthy: bool) returns (r: Repair, ok: bool)
      requires key != "" && routes.Valid() && Draining(a)
      modifies this`trace, routes, routes.router, routes.clock
      ensures Failures() >= old(Failures())
      ensures routes.Valid() && AtHome(a) && NoDrain()
      ensures r.drainReleased && !r.blocked
      ensures RecreatedOnce(old(trace), a, hasHealthy)
      ensures ok ==> trace != old(trace) && trace[|old(trace)|].ok
      ensures Reports(r, old(trace), a, hasHealthy)
    {
      DrainingIsWithdrawn(a);
      var safe, advertised;
      ok, safe := RecreateVIP(a);
      SiblingsRun();
      if !ok {
        var restore, released := hasHealthy && safe, false;
        advertised, released := ReleaseUpdateDrain(a, restore);
        return Repair(false, true, restore && released && advertised, advertised, !released), false;
      }
      advertised, ok := routes.FinishDrain(key, a);
      r := NO_REPAIR.(drainReleased := true, routeAdvertised := advertised, routeFailed := !ok);
    }

    /** The end of repairTuningDrift, once the drain is held: wait, recreate, give the drain back. */
    method RecreateBehindDrain(a: Address, hasHealthy: bool) returns (r: Repair, ok: bool)
      requires key != "" && routes.Valid() && Draining(a)
      modifies this`trace, routes, routes.router, routes.clock
      ensures Failures() >= old(Failures())
      ensures routes.Valid() && AtHome(a) && NoDrain()
      ensures r.drainReleased && !r.blocked
      // Without a recreate the wait was interrupted and the VIP is put back as it was.
      ensures trace == old(trace) ==> !ok && !r.retainedOldVIP && hasHealthy && ListedAs(a, true)
      ensures trace != old(trace) ==> RecreatedOnce(old(trace), a, hasHealthy)
      ensures ok ==> trace != old(trace) && trace[|old(trace)|].ok
      ensures Reports(r, old(trace), a, hasHealthy)
    {
      SiblingsRun();
      if hasHealthy {
        var slept := *;
        if !slept {
          var advertised, released := ReleaseUpdateDrain(a, hasHealthy);
          return NO_REPAIR.(drainReleased := true, routeAdvertised := advertised, routeFailed := !released), false;
        }
        SiblingsRun();
      }
      r, ok := RecreateAndRelease(a, hasHealthy);
    }

    method RepairTuningDrift(a: Address, hasHealthy: bool, rolloutHeld: bool) returns (r: Repair, ok: bool)
      requires key != "" && routes.Valid() && AtHome(a) && (NoDrain() || Draining(a))
      modifies this`trace, routes, routes.router, routes.clock
      ensures Failures() >= old(Failures())
      ensures routes.Valid() && AtHome(a)
      ensures r.drainReleased ==> NoDrain()
      ensures !r.drainReleased ==> (old(NoDrain()) ==> NoDrain()) && (old(Draining(a)) ==> Draining(a))
      ensures trace == old(trace) || RecreatedOnce(old(trace), a, hasHealthy)
      ensures r.blocked ==> trace == old(trace) && !r.drainReleased
      // Under the rollout, or without any, a repair is blocked exactly while the address is occupied by another VIP.
      ensures !hasRollouts || rolloutHeld ==> (r.blocked ==> Occupied(old(routes.addresses), key, a, false))
      ensures (&& (!hasRollouts || rolloutHeld) && !preserveDrift && canRecreate && !Inert(a) && !r.routeFailed
               && Occupied(old(routes.addresses), key, a, false)) ==> r.blocked
      ensures preserveDrift ==> ok && r == NO_REPAIR
      ensures !r.drainReleased ==> trace == old(trace) && (Serves(a) ==> old(Serves(a)))
      ensures r.drainReleased && trace == old(trace) ==> !ok && hasHealthy && ListedAs(a, true)
      ensures ok && r.drainReleased ==> trace != old(trace)
      ensures ok && trace != old(trace) ==> trace[|old(trace)|].ok
      ensures Reports(r, old(trace), a, hasHealthy)
      decreases !rolloutHeld
    {
      if preserveDrift {
        return NO_REPAIR, true;
      }
      if hasRollouts && !rolloutHeld {
        SiblingsRun();
        var locked, current, released := *, *, *;
        if !locked {
          return NO_REPAIR, false;
        }
        if !current {
          return NO_REPAIR, released;
        }
        r, ok := RepairTuningDrift(a, hasHealthy, true);
        return r, ok && released;
      }
      if !canRecreate {
        return NO_REPAIR, false;
      }
      var drained;
      drained, ok := routes.BeginDrain(key, a, false);
      if !ok {
        return NO_REPAIR.(routeFailed := true), false;
      }
      if !drained {
        return NO_REPAIR.(blocked := true), true;
      }
      r, ok := RecreateBehindDrain(a, hasHealthy);
    }

    /** persistPendingConfig and commitLastConfig; a failed transaction changes nothing. */
    method PersistPending() returns (ok: bool)
      modifies this`pending
      ensures ok ==> pending
      ensures !ok ==> pending == old(pending)
    {
      ok := *;
      if ok { pending := true; }
    }

    method CommitLast() returns (ok: bool)
      modifies this`pending, this`committed
      ensures ok ==> committed && !pending
      ensures !ok ==> pending == old(pending) && committed == old(committed)
    {
      ok := *;
      if ok { committed, pending := true, false; }
    }

    /** BeginAddressDrain and the wait that follows it. */
    method DrainBeforeApply(a: Address, hasHealthy: bool) returns (failure: Option<Outcome>)
      requires Valid() && AtHome(a)
      modifies routes, routes.router, routes.clock
      ensures Failures() >= old(Failures())
      ensures routes.Valid() && AtHome(a)
      ensures failure == None ==> Draining(a)
      ensures failure != None ==> NoDrain() && failure.value in {DrainFailed, DrainRefused, DrainInterrupted}
      ensures failure in {Some(DrainFailed), Some(DrainInterrupted)} ==> ListedAs(a, false)
      ensures failure == Some(DrainRefused) ==> ListingKept()
      // It is refused exactly while another VIP drains the address, whoever serves on it, and interrupted only while waiting.
      ensures failure != Some(DrainFailed) && !Inert(a) ==>
                (failure == Some(DrainRefused) <==> old(StateOf(routes.addresses, a).drainOwner) !in {"", key})
      ensures failure == Some(DrainInterrupted) ==> hasHealthy
    {
      var drained, ok := routes.BeginDrain(key, a, true);
      if !ok {
        return Some(DrainFailed);
      }
      if !drained {
        return Some(DrainRefused);
      }
      SiblingsRun();
      if hasHealthy {
        var slept := *;
        if !slept {
          var _, _ := ReleaseUpdateDrain(a, false);
          return Some(DrainInterrupted);
        }
        SiblingsRun();
      }
      return None;
    }

    /** A repair that failed with or without asking the dataplane, and what it says about the old VIP. */
    ghost predicate FailedRepair(before: seq<Effect>, a: Address, hasHealthy: bool, retained: bool)
      reads this`trace, routes, routes.router
    {
      if trace == before then !retained
      else RecreatedOnce(before, a, hasHealthy) && (retained ==> KeepsOldVIP(trace[|before|], hasHealthy))
    }

    /** dataplaneTuningDrifts, the repair they ask for, and what the repair's result means for the route. */
    method RepairIfDrifted(a: Address, hasHealthy: bool, rolloutHeld: bool, drainHeld: bool) returns (failure: Option<Outcome>)
      requires key != "" && routes.Valid() && AtHome(a) && (if drainHeld then Draining(a) else NoDrain())
      modifies this`trace, routes, routes.router, routes.clock
      ensures Failures() >= old(Failures())
      ensures routes.Valid() && AtHome(a)
      ensures failure != None ==> NoDrain() && (failure.value == RepairBlocked || failure.value.RepairFailed?)
      ensures failure == None ==> NoDrain() || (drainHeld && Draining(a))
      ensures failure == Some(RepairBlocked) ==> ListedAs(a, hasHealthy) && trace == old(trace)
      ensures trace == old(trace) || (RecreatedOnce(old(trace), a, hasHealthy) && (failure == None ==> trace[|old(trace)|].ok))
      ensures failure != None && failure.value.RepairFailed? ==> FailedRepair(old(trace), a, hasHealthy, failure.value.retainedOldVIP)
      ensures failure != None && failure.value.RepairFailed? && Serves(a) ==> hasHealthy || (!drainHeld && old(Serves(a)))
      ensures failure == None && drainHeld && !Draining(a) ==> trace != old(trace)
    {
      var drifted := *;
      if !drifted {
        return None;
      }
      var r, ok := RepairTuningDrift(a, hasHealthy, rolloutHeld);
      SiblingsRun();
      if r.blocked {
        if drainHeld && !r.drainReleased {
          var _, _ := ReleaseUpdateDrain(a, hasHealthy);
        } else {
          var _, _ := routes.SetServing(key, a, hasHealthy);
        }
        return Some(RepairBlocked);
      }
      if !ok {
        if drainHeld && !r.drainReleased {
          var _, _ := ReleaseUpdateDrain(a, false);
        }
        return Some(RepairFailed(r.retainedOldVIP));
      }
      return None;
    }

    /** ApplyVIP and commitLastConfig, giving the drain back when either fails. */
    method ApplyAndCommit(a: Address, drainHeld: bool) returns (failure: Option<Outcome>)
      requires key != "" && routes.Valid() && AtHome(a) && (if drainHeld then Draining(a) else NoDrain())
      modifies this, routes, routes.router, routes.clock
      ensures Failures() >= old(Failures())
      ensures routes.Valid() && AtHome(a)
      ensures trace == old(trace) + [Applied(drainHeld, old(Withdrawn(a)), failure != Some(ApplyFailed))]
      ensures drainHeld ==> old(Withdrawn(a))
      ensures failure != None ==> NoDrain() && failure.value in {ApplyFailed, CommitFailed}
      ensures failure == None ==> committed && !pending && if drainHeld then Draining(a) else NoDrain()
      ensures failure != None ==> pending == old(pending) && committed == old(committed)
      ensures failure == Some(ApplyFailed) ==> ListedAs(a, false)
      ensures failure == Some(CommitFailed) ==> if drainHeld then ListedAs(a, false) else ListingKept()
      ensures failure == None ==> ListingKept()
    {
      if drainHeld {
        DrainingIsWithdrawn(a);
      }
      var applied := ApplyVIP(a, drainHeld);
      SiblingsRun();
      if !applied {
        if drainHeld {
          var _, _ := ReleaseUpdateDrain(a, false);
        } else {
          var _, _ := routes.SetServing(key, a, false);
        }
        return Some(ApplyFailed);
      }
      var recorded := CommitLast();
      if !recorded {
        if drainHeld {
          var _, _ := ReleaseUpdateDrain(a, false);
        }
        return Some(CommitFailed);
      }
      return None;
    }

    /**
     What follows the apply at position `n` of the trace: nothing, or one recreate. A success follows no
     failed recreate; after a failed one the VIP counts as serving, and the old VIP as retained, only if
     the dataplane called that safe.
     */
    ghost predicate RepairsOnce(n: nat, a: Address, hasHealthy: bool, out: Outcome)
      requires n < |trace|
      reads this`trace, routes, routes.router
    {
      if out.RepairFailed? then FailedRepair(trace[..n + 1], a, hasHealthy, out.retainedOldVIP)
      else |trace| == n + 1 || (out.Reconciled? && |trace| == n + 2 && trace[n + 1].Recreated? && trace[n + 1].ok)
    }

    /** The second half of reconcileApplied, from ApplyVIP on. */
    method ApplyAndPublish(a: Address, hasHealthy: bool, rolloutHeld: bool, drainHeld: bool) returns (out: Outcome)
      requires key != "" && routes.Valid() && AtHome(a) && (if drainHeld then Draining(a) else NoDrain())
      modifies this, routes, routes.router, routes.clock
      ensures Failures() >= old(Failures())
      ensures Valid()
      ensures old(trace) <= trace && forall i :: |old(trace)| <= i < |trace| ==> Undisruptive(trace[i])
      ensures |trace| > |old(trace)| && trace[|old(trace)|].Applied? && (trace[|old(trace)|].ok <==> out != ApplyFailed)
      ensures out in {ApplyFailed, CommitFailed, RepairBlocked} || out.RepairFailed? || out.Reconciled?
      ensures RepairsOnce(|old(trace)|, a, hasHealthy, out)
      ensures out == ApplyFailed ==> ListedAs(a, false)
      ensures out == CommitFailed ==> if drainHeld then ListedAs(a, false) else ListingKept()
      ensures out.RepairFailed? && Serves(a) ==> hasHealthy || (!drainHeld && old(Serves(a)))
      ensures out == RepairBlocked || out.Reconciled? ==> ListedAs(a, hasHealthy)
      ensures out !in {ApplyFailed, CommitFailed} ==> committed && !pending
      ensures out in {ApplyFailed, CommitFailed} ==> pending == old(pending) && committed == old(committed)
      ensures out.Reconciled? && out.routeOk && !Inert(a) && !routes.Agrees(a) ==>
                drainHeld && Failures() > old(Failures()) && trace[|trace| - 1].Recreated?
    {
      var failure := ApplyAndCommit(a, drainHeld);
      if failure != None {
        return failure.value;
      }
      failure := RepairIfDrifted(a, hasHealthy, rolloutHeld, drainHeld);
      if failure != None {
        return failure.value;
      }
      var advertised, routeOk;
      advertised, routeOk := PublishRoute(a, hasHealthy, drainHeld);
      return Reconciled(advertised, routeOk);
    }

    /** The start of reconcileApplied: persist the intent, leave a previous address. */
    method PrepareApply(a: Address) returns (failure: Option<Outcome>)
      requires Valid()
      modifies this`pending, routes, routes.router, routes.clock
      ensures Failures() >= old(Failures())
      ensures Valid()
      ensures failure == None ==> AtHome(a) && HereOrNowhere(a)
      ensures failure == Some(PersistFailed) || pending
      ensures failure == Some(PersistFailed) ==> pending == old(pending)
      ensures failure == Some(PersistFailed) ==> ListingKept()
      ensures failure == Some(RouteChangeFailed) ==> forall b :: ServingAt(routes.addresses, key, b) == None
      ensures failure in {None, Some(PersistFailed), Some(RouteChangeFailed)}
    {
      var persisted := PersistPending();
      if !persisted {
        return Some(PersistFailed);
      }
      var _, prepared := routes.PrepareAddressChange(key, a);
      if !prepared {
        return Some(RouteChangeFailed);
      }
      assert HereOrNowhere(a);
      SiblingsRun();
      return None;
    }

    /** reconcileApplied for a VIP that is not listed elsewhere. */
    method DrainAndApply(a: Address, hasHealthy: bool, rolloutHeld: bool, drainBeforeApply: bool)
        returns (out: Outcome)
      requires Valid() && AtHome(a)
      modifies this, routes, routes.router, routes.clock
      ensures Failures() >= old(Failures())
      ensures Valid()
      ensures old(trace) <= trace && forall i :: |old(trace)| <= i < |trace| ==> Undisruptive(trace[i])
      ensures out !in {PersistFailed, RouteChangeFailed}
      ensures out in {DrainFailed, DrainRefused, DrainInterrupted} ==> trace == old(trace)
      ensures out !in {DrainFailed, DrainRefused, DrainInterrupted} ==>
                && |trace| > |old(trace)| && trace[|old(trace)|].Applied? && (trace[|old(trace)|].ok <==> out != ApplyFailed)
                && RepairsOnce(|old(trace)|, a, hasHealthy, out)
      ensures out in {DrainFailed, DrainInterrupted, ApplyFailed} ==> ListedAs(a, false)
      ensures out == DrainRefused || (out == CommitFailed && !drainBeforeApply) ==> ListingKept()
      ensures out == CommitFailed && drainBeforeApply ==> ListedAs(a, false)
      ensures out.RepairFailed? && Serves(a) ==> hasHealthy || (!drainBeforeApply && old(Serves(a)))
      ensures out == RepairBlocked || out.Reconciled? ==> ListedAs(a, hasHealthy)
      ensures if out.Reconciled? || out == RepairBlocked || out.RepairFailed? then committed && !pending
              else pending == old(pending) && committed == old(committed)
      ensures out.Reconciled? && out.routeOk && !Inert(a) && !routes.Agrees(a) ==>
                drainBeforeApply && Failures() > old(Failures()) && trace[|trace| - 1].Recreated?
    {
      if drainBeforeApply {
        var failure := DrainBeforeApply(a, hasHealthy);
        if failure != None {
          return failure.value;
        }
      }
      out := ApplyAndPublish(a, hasHealthy, rolloutHeld, drainBeforeApply);
    }

    /**
     reconcileApplied. On every path the VIP ends without a drain, and the dataplane saw a planned
     apply or a recreate only while the route of the address was withdrawn.
     */
    method ReconcileApplied(a: Address, hasHealthy: bool, rolloutHeld: bool, drainBeforeApply: bool)
        returns (out: Outcome)
      requires Valid()
      modifies this, routes, routes.router, routes.clock
      ensures Valid()
      ensures old(trace) <= trace && forall i :: |old(trace)| <= i < |trace| ==> Undisruptive(trace[i])
      ensures out in {PersistFailed, RouteChangeFailed, DrainFailed, DrainRefused, DrainInterrupted} ==> trace == old(trace)
      ensures out !in {PersistFailed, RouteChangeFailed, DrainFailed, DrainRefused, DrainInterrupted} ==>
                && |trace| > |old(trace)| && trace[|old(trace)|].Applied? && (trace[|old(trace)|].ok <==> out != ApplyFailed)
                && RepairsOnce(|old(trace)|, a, hasHealthy, out)
      // How the VIP is listed afterwards.
      ensures out == PersistFailed ==> ListingKept()
      ensures out == RouteChangeFailed ==> forall b :: ServingAt(routes.addresses, key, b) == None
      ensures out in {DrainFailed, DrainInterrupted, ApplyFailed} ==> ListedAs(a, false)
      ensures out == DrainRefused || (out == CommitFailed && !drainBeforeApply) ==> HereOrNowhere(a)
      ensures out == CommitFailed && drainBeforeApply ==> ListedAs(a, false)
      ensures out == RepairBlocked || out.Reconciled? ==> ListedAs(a, hasHealthy)
      // A VIP without healthy backends goes on serving only if it did so and the run ended before publishing it.
      ensures Serves(a) && !hasHealthy ==> old(Serves(a)) && (out in {PersistFailed, DrainRefused}
                                           || ((out == CommitFailed || out.RepairFailed?) && !drainBeforeApply))
      // The intent stays pending until it is committed, which happens only after a successful apply.
      ensures if out.Reconciled? || out == RepairBlocked || out.RepairFailed? then committed && !pending
              else committed == old(committed) && (if out == PersistFailed then pending == old(pending) else pending)
      // Success means that the router agrees, unless a repair gave the drain back early and a router call failed.
      ensures out.Reconciled? && out.routeOk && !Inert(a) && !routes.Agrees(a) ==>
                drainBeforeApply && Failures() > old(Failures()) && trace[|trace| - 1].Recreated?
    {
      var failure := PrepareApply(a);
      if failure != None {
        return failure.value;
      }
      out := DrainAndApply(a, hasHealthy, rolloutHeld, drainBeforeApply);
    }

    /** Listed as before, or nowhere if the VIP first had to leave another address. */
    twostate predicate HereOrNowhere(a: Address)
      reads routes
    {
      if old(AtHome(a)) then ListingKept() else forall b :: ServingAt(routes.addresses, key, b) == None
    }

    /** FinishDrain after other VIPs had their turn; the owner's call settles the route. */
    method FinishPublished(a: Address, hasHealthy: bool) returns (advertised: bool, ok: bool)
      requires key != "" && routes.Valid() && AtHome(a) && ListedAs(a, hasHealthy)
      requires Inert(a) || forall b :: b != a ==> !OwnsDrain(routes.addresses, key, b)
      requires Inert(a) ==> NoDrain()
      modifies routes, routes.router, routes.clock
      ensures routes.Valid() && NoDrain() && ListedAs(a, hasHealthy)
      ensures Failures() >= old(Failures())
      ensures ok && !Inert(a) && (old(HoldsDrain(routes.addresses, key, a)) || (old(routes.Agrees(a)) && Failures() == old(Failures())))
              ==> routes.Agrees(a)
    {
      SiblingsRun();
      advertised, ok := routes.FinishDrain(key, a);
    }

    /** The last SetServing and, when this run drained the address, FinishDrain. */
    method PublishRoute(a: Address, hasHealthy: bool, drainHeld: bool) returns (advertised: bool, ok: bool)
      requires key != "" && routes.Valid() && AtHome(a) && (NoDrain() || (drainHeld && Draining(a)))
      modifies routes, routes.router, routes.clock
      ensures routes.Valid() && NoDrain() && ListedAs(a, hasHealthy)
      ensures Failures() >= old(Failures())
      ensures ok && !Inert(a) && (!drainHeld || old(Draining(a)) || Failures() == old(Failures())) ==> routes.Agrees(a)
    {
      SiblingsRun();
      advertised, ok := routes.SetServing(key, a, hasHealthy);
      if ok && drainHeld {
        advertised, ok := FinishPublished(a, hasHealthy);
      }
    }

    /** The route that a delete has to take down is known to the coordinator, or is down. */
    ghost predicate Deletable(a: Address)
      reads routes, routes.router
    {
      var target := routes.DeleteTarget(key, a);
      routes.router == null || target == "" || target in routes.addresses || !routes.Announced(target)
    }

    /** What a failed route call of a delete leaves: the VIP is listed nowhere, and an empty entry is dropped. */
    twostate predicate DeleteRouteFailed(a: Address)
      reads routes, routes.router
    {
      var target := old(routes.DeleteTarget(key, a));
      && routes.router != null && routes.vipAddresses == old(routes.vipAddresses)
      && old(routes.router.announced) <= routes.router.announced
      && SameForOthers(old(routes.addresses), old(routes.vipAddresses), routes.addresses, routes.vipAddresses, key)
      && (forall b :: ServingAt(routes.addresses, key, b) == None)
      && (target in routes.addresses ==> routes.addresses[target].serving != map[] || old(StateOf(routes.addresses, target).advertised))
    }

    /** The route half of handleDelete. */
    method DeleteRoute(a: Address) returns (ok: bool)
      requires Valid()
      modifies routes, routes.router, routes.clock
      ensures Valid()
      ensures !ok ==> DeleteRouteFailed(a)
      ensures !old(Deletable(a)) ==> ok
      ensures ok && routes.router != null && old(routes.DeleteTarget(key, a)) != "" ==>
                && key !in routes.vipAddresses && (forall b :: ServingAt(routes.addresses, key, b) == None)
                && (routes.Agrees(old(routes.DeleteTarget(key, a))) <==> old(Deletable(a)))
    {
      ok := routes.Delete(key, a);
    }

    /**
     handleDelete: the route first, then the dataplane, and the local records only when both worked.
     The dataplane is asked only after the route call succeeded, and the route is really settled then
     exactly when it was deletable.
     */
    method HandleDelete(a: Address) returns (done: bool)
      requires Valid()
      modifies this, routes, routes.router, routes.clock
      ensures Valid()
      ensures trace == old(trace) || trace == old(trace) + [Removal(old(Deletable(a)), done)]
      ensures trace == old(trace) ==> DeleteRouteFailed(a)
      ensures !old(Deletable(a)) ==> trace != old(trace)
      ensures trace != old(trace) ==>
                || routes.router == null || old(routes.DeleteTarget(key, a)) == ""
                || (TrackedAddress(routes.vipAddresses, key) == "" && forall b :: ServingAt(routes.addresses, key, b) == None)
      ensures done ==> trace != old(trace)
      ensures !done ==> pending == old(pending) && committed == old(committed)
    {
      var routeGone := DeleteRoute(a);
      if !routeGone {
        return false;
      }
      ghost var target := old(routes.DeleteTarget(key, a));
      done := *;
      trace := trace + [Removal(routes.router == null || target == "" || routes.Agrees(target), done)];
      SiblingsRun();
      if done {
        var forgotLast, forgotPending := *, *;
        if forgotLast { committed := false; }
        if forgotPending { pending := false; }
      }
    }
  }

  /**
   A deletion whose route call failed on an address that was never reconciled is retried: the retry asks
   the dataplane to remove the VIP although its route was never withdrawn.
   */
  method RetriedDeleteReachesTheDataplane(router: Router, clock: Clock, k: VipKey, a: Address)
      returns (served: bool, done: bool, ghost firstFailed: bool, ghost trace: seq<Effect>)
    requires clock.tolerance == 30_000_000 && k != "" && a != "" && a in router.announced
    modifies router, clock
    ensures !served && firstFailed ==> trace == [Removal(false, done)]
  {
    var routes := new RouteCoordinator(router, clock, 0);
    var advertised;
    advertised, served := routes.SetServing(k, a, false);
    ghost var m := routes.addresses;
    var vr := new VipReconciler(k, routes, false, false, false);
    done := vr.HandleDelete(a);
    firstFailed := vr.trace == [];
    assert !served && firstFailed ==> a !in routes.addresses by {
      assert !served && firstFailed ==> forall j :: ServingAt(routes.addresses, j, a) == if j == k then None else ServingAt(m, j, a);
      assert a in routes.addresses ==> forall j :: j in routes.addresses[a].serving ==> ServingAt(routes.addresses, j, a).Some?;
    }
    done := vr.HandleDelete(a);
    trace := vr.trace;
  }

  /** A VIP that lost its healthy backends stays listed as serving when its configuration cannot be committed. */
  method FailedCommitKeepsServing(router: Router, clock: Clock, k: VipKey, a: Address) returns (served: bool, out: Outcome, listed: bool)
    requires clock.tolerance == 30_000_000 && k != "" && a != ""
    modifies router, clock
    ensures served && out == CommitFailed ==> listed
  {
    var routes := new RouteCoordinator(router, clock, 0);
    var advertised;
    advertised, served := routes.SetServing(k, a, true);
    var vr := new VipReconciler(k, routes, false, false, false);
    out := vr.ReconcileApplied(a, false, false, false);
    listed := ServingAt(routes.addresses, k, a) == Some(true);
  }
}
