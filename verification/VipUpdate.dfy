/** One VIP update across its two halves: what the plan says, the route, and then the dataplane. */
module VipUpdate {
  import opened Prelude
  import Routes = RouteCoordination
  import Plane = VppDataPlane

  /** The drain that a plan asks for, and ApplyVIP: with a drain, a deletion on the device finds the route withdrawn. */
  method DrainAndApply(routes: Routes.RouteCoordinator, vpp: Plane.Vpp, vip: Plane.Vip, drainBeforeApply: bool,
                       healthy: seq<Plane.Backend>, now: int) returns (ok: bool)
    requires routes.Valid() && vip.key != "" && vpp.Distinct() && vpp.Unshared(vip)
    modifies routes, routes.router, routes.clock, vpp, vpp.device
    ensures routes.Valid() && vpp.Distinct()
    ensures !drainBeforeApply ==> unchanged(routes) && (routes.router != null ==> unchanged(routes.router))
    ensures !drainBeforeApply && old(vpp.Harmless(vip)) ==> vpp.device.deletions == old(vpp.device.deletions)
    ensures drainBeforeApply && vpp.device.deletions != old(vpp.device.deletions) ==>
              routes.router == null || vip.address == "" || !routes.Announced(vip.address)
  {
    if drainBeforeApply {
      var drained;
      drained, ok := routes.BeginDrain(vip.key, vip.address, true);
      if !ok || !drained {
        return false;
      }
    }
    ok := vpp.ApplyVIP(vip, healthy, now);
  }

  /**
   planVIPUpdate, prepareAddressChange, the drain it asks for and ApplyVIP, with nothing in between. An
   apply that deletes a VIP from the device finds the route of the address withdrawn; or else the VIP was
   tracked under another address and has left it, so that the router agrees there unless the route was
   up without an entry.
   */
  method PlanAndApply(routes: Routes.RouteCoordinator, vpp: Plane.Vpp, vip: Plane.Vip, applied: Result<Option<Plane.Vip>>,
                      healthy: seq<Plane.Backend>, now: int) returns (ok: bool)
    requires routes.Valid() && vip.key != "" && vpp.Distinct() && vpp.Unshared(vip)
    modifies routes, routes.router, routes.clock, vpp, vpp.device
    ensures routes.Valid() && vpp.Distinct()
    ensures vpp.device.deletions != old(vpp.device.deletions) ==>
              || routes.router == null || vip.address == "" || !routes.Announced(vip.address)
              || (&& !old(routes.MayLeave(vip.key, vip.address)) && routes.LeftBehind(vip.key, vip.address)
                  && forall b :: Routes.ServingAt(routes.addresses, vip.key, b) == None)
  {
    var previous, pending := routes.PendingAddressChange(vip.key, vip.address);
    var rolloutKeys, drainBeforeApply, _ := vpp.PlanVIPUpdate(vip, if pending then Some(previous) else None, applied);
    var advertised;
    advertised, ok := routes.PrepareAddressChange(vip.key, vip.address);
    if !ok {
      return;
    }
    ok := DrainAndApply(routes, vpp, vip, drainBeforeApply, healthy, now);
  }
}
