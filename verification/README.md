# arca-lb agent: a verified model

arca-lb is a load balancer whose agents program VPP, announce routes through FRR and report to
Kubernetes. This project models the control logic of the v2 agent, and the configuration difference
of the older one, in Dafny, and proves what keeps traffic safe: who may roll out, when a route may be
announced, when a VIP may be replaced in the dataplane, what is reported, and what a restart may
clean up. Check it with `dafny verify dfyconfig.toml`. Nothing was executed.

Environments (VPP, the router, the Kubernetes API, the local store, the clock) are states whose calls
may fail at any time. Code that updates fields in place is modelled by classes and loops; concurrency
by state machines whose steps are the critical sections, with theorems over every run.

| file | models |
|---|---|
| Lease, LeaseProtocol, LocalLocks, StringOrder, RolloutOrder | rollout leases, the in-process lock table, key order |
| RouteCoordinator, RouteInterleaving | the shared route of VIPs on one address, drains |
| VipReconciler, Lifecycle | reconciling one VIP; starting, deleting and recreating reconcilers |
| VppDataPlane, VipUpdate | the VPP cache and the device behind it; plan, route and apply together |
| EventGate, GateInterleaving, GateTimings | the initial-sync event gate |
| HealthyBitmap, StatusAggregation, AgentStatusList, VipStatus, StatusRuns | per-agent reports and the aggregate status |
| Hysteresis, HealthEngine, HealthRuns, HealthHistory | health state machines, epochs, persistence |
| JsonValues, ConfigDiff | comparison and difference of configurations |
| StartupCleanup | cleaning up what an earlier run left |

## Properties that do not hold

These were found false of the code. Each has a concrete input and the condition under which it does
hold, exact except for `PublishRoute` and `StartContinuesIff`, where "Left out" says what stays open.

- Deleting a VIP's route: when the first attempt fails on an address that was never reconciled, the
  retry succeeds without withdrawing (`RetriedDeleteForgetsTheRoute`, and the condition in `Delete`),
  and the VIP is removed from the dataplane behind an announced route
  (`RetriedDeleteReachesTheDataplane`, and the condition in `HandleDelete`).
- A drain finished by somebody who does not own it reconciles nothing
  (`StrangersFinishReconcilesNothing`, and the condition in `FinishDrain`).
- A reconcile that repaired drift can report success although the route does not agree, when another
  VIP's router call failed (`LateFinishHidesAFailure`, and the condition in `PublishRoute`).
- A VIP that lost its healthy backends stays listed as serving when a run without a drain ends before
  publishing it (`FailedCommitKeepsServing`, and the condition in `ReconcileApplied`).
- A deletion that names another object than the one in service takes that out of service all the same
  (`ForeignDeletionStrikes`, and the condition in `ManagedIffWanted`).
- A recreated reconciler may fall back to an older object when its first update runs late
  (`OvertakingHappens`, `HandoffIsCurrentIff`).
- Backend operations that name another tuple than the cache make the cache lie
  (`AddingElsewhereLies`, `RemovingElsewhereLies`, and the conditions in `AddBackend` and
  `RemoveBackend`); no caller of the v2 agent uses them.
- A VIP that was recreated with the same generation and spec can be ignored, and whether it is depends
  on how the gate merged its events (`RecreationCanBeMissed`, `HarmlessIff`, `SameAsUngatedIff`).
- The data plane verdict depends on the order of agents that report both False and Unknown
  (`OrderCanDecide`, `DataPlaneIgnoresOrderIff`).
- The two health state machines differ for thresholds below one (`Distinguish`,
  `TrackerMatchesEngineIff`).
- A stop and start between a probe result and its save forgets the result (`RacingStartForgets`,
  `StartContinuesIff`).
- A health check option of an unlisted Go type never compares equal, not even to its copy
  (`UnlistedDiffersFromItself`, `CopyComparesEqualIff`).
- Startup cleanup removes the tuple of a live VIP from the dataplane when an old record differs from it
  in encapsulation or DSCP only, or belongs to another key (`ChangedEncapIsRemoved`,
  `LiveTupleRemovedIff`).

## Model

| member | source | states |
|---|---|---|
| Lease.DurationSeconds | internal/agent/rollout/lease.go:445-454 | The recorded duration is the least positive number of seconds that covers the configured one, capped at the largest int32. |
| LeaseProtocol.MutualExclusion | internal/agent/rollout/lease.go:251-433 | In every interleaving of any number of coordinators, with requests that arrive late and agents that give up at any point, no two coordinators have unexpired claims at the same instant. |
| LeaseProtocol.HandOverOnlyAfterExpiry | internal/agent/rollout/lease.go:251-348 | A lease passes from one non-empty holder to another only at or after the recorded renew time plus the recorded duration; exactly such a change increments the int32 transition counter, an absent counter counting as zero, and taking a free lease, renewing and releasing keep it. |
| LeaseProtocol.StaleWritersAreHarmless | internal/agent/rollout/lease.go:377-433 | A renew or release by somebody who is no longer the holder, however late it lands, changes nothing. |
| LeaseProtocol.UnexpiredClaimIsKept | internal/agent/rollout/lease.go:251-405 | While a claim is unexpired its owner stays the recorded holder and the recorded deadline never moves back. |
| LeaseProtocol.RenewalExtends | internal/agent/rollout/lease.go:377-405 | An accepted renewal sets the renew time to the instant at which it was built and the duration to the holder's whole seconds, so that the deadline is the sum of the two; holder, acquire time and transitions stay. |
| LeaseProtocol.ClaimStartsLease | internal/agent/rollout/lease.go:282-328 | An accepted create or claim names its sender and starts the lease at the instant at which it was built; the acquire time is kept only for a holder that takes its own lease again, and only taking it from somebody else counts a transition. |
| LeaseProtocol.ReleaseFreesLease | internal/agent/rollout/lease.go:407-433 | An accepted release by the holder clears the holder, stamps the renew time and keeps the rest. |
| LeaseProtocol.GrantIsWhatIsStored | internal/agent/rollout/lease.go:251-280 | A coordinator is granted a claim only by the reply to its own request, and the claim is what the store says. |
| LeaseProtocol.RenewalIsWhatIsStored | internal/agent/rollout/lease.go:377-405 | After an accepted renewal the coordinator's claim is what the store says, with the renew time of its request. |
| LeaseProtocol.ClaimableIff | internal/agent/rollout/lease.go:330-348 | A coordinator that read a lease can send a claim exactly when it is free, its own, without any time, or its recorded time is over, the own duration standing in for a missing one. |
| LeaseProtocol.FreeLeaseIsGranted | internal/agent/rollout/lease.go:251-280 | Such a claim is granted if the store did not move since it was read, and is then held. |
| LeaseProtocol.HolderCanRenew | internal/agent/rollout/lease.go:377-405 | A holder that read its own lease can have it renewed to now if the store did not move, and then holds the longer claim. |
| LeaseProtocol.ChangeHasAuthor | internal/agent/rollout/lease.go:251-433 | Every change of the lease was written by a request of a known coordinator that was justified when it was applied; a release only by one without claims. |
| LeaseProtocol.RunKeepsInv | internal/agent/rollout/lease.go:251-433 | Every reachable state backs every claim by the store and every outstanding request by what its sender read. |
| LocalLocks.OneRunnerPerKey | internal/agent/rollout/lease.go:194-227 | Within one process at most one protected function runs per key, although a lease held by the own identity counts as available. |
| LocalLocks.EntryLivesWhileReferenced | internal/agent/rollout/lease.go:194-227 | A key has a table entry exactly while some goroutine waits for it, holds it or is leaving it, and refs is the number of those goroutines. |
| LocalLocks.WaiterCanGoOnIff | internal/agent/rollout/lease.go:194-217 | A waiting goroutine can take the lock exactly while no protected function runs for its key. |
| RolloutOrder.RolloutKeysForAddresses | internal/agent/reconciler/v2_reconciler.go:973-989 | The key list is ascending, free of duplicates, and holds exactly the keys of the non-empty addresses. |
| StringOrder.LessIff | internal/agent/reconciler/v2_reconciler.go:987 | The order of the keys is lexicographic: at the first difference the smaller string ends or has the smaller character. |
| RolloutOrder.RolloutKeyIsInjective | internal/agent/reconciler/v2_reconciler.go:991-993 | Different addresses have different rollout keys. |
| RolloutOrder.NoWaitCycle | internal/agent/reconciler/v2_reconciler.go:955-971 | No reachable hold/wait graph over local locks and leases has a cycle, for any number of agents and goroutines and with expired leases being taken over. |
| RolloutOrder.SomebodyCanMove | internal/agent/rollout/lease.go:146-160 | As long as a rollout is unfinished, some unfinished rollout waits for nobody. |
| RouteCoordination.RouteCoordinator.ReconcileRoute | internal/agent/reconciler/v2_reconciler.go:276-313 | Without an error the router announces the address exactly when some VIP serves on it and no drain holds it back; a served address is announced again once its last confirmation is an interval old; an address that is quiet and must stay quiet costs no router call and cannot fail; a failed withdrawal never hides an announced route. |
| RouteCoordination.RouteCoordinator.RemoveVIPFromAddress | internal/agent/reconciler/v2_reconciler.go:315-336 | A VIP leaves an address in bookkeeping and, if the last one, in the router; a key that lives elsewhere is left alone; other keys and routes are untouched. |
| RouteCoordination.RouteCoordinator.SetServing | internal/agent/reconciler/v2_reconciler.go:338-360 | The VIP is listed on this address only, with the given flag; without an error the router agrees here, at a previous address unless the route was up there without an entry, and wherever it agreed before; under a held drain no router call is made and the call cannot fail. |
| RouteCoordination.RouteCoordinator.BeginDrain | internal/agent/reconciler/v2_reconciler.go:364-420 | Without an error a drain is refused exactly while another VIP drains the address or, without force, serves on it. A granted drain is owned, and the route is withdrawn; a refused one leaves entry and route of the address as they were, but for a moving VIP having left its previous address, where the router agrees; a failed one leaves no drain behind. |
| RouteCoordination.RouteCoordinator.FinishDrain | internal/agent/reconciler/v2_reconciler.go:423-445 | Afterwards the caller owns no drain; the router agrees if and only if the caller was the owner or it agreed before. |
| RouteCoordination.StrangersFinishReconcilesNothing | internal/agent/reconciler/v2_reconciler.go:423-445 | A concrete finish by somebody who owns no drain: it succeeds and an unserved route stays announced. |
| RouteCoordination.LateFinishHidesAFailure | internal/agent/reconciler/v2_reconciler.go:1207-1210 | A concrete run in which another VIP's withdrawal fails between the last two calls of a reconcile that no longer owns its drain: the last one reports success while an unserved route stays announced. |
| RouteCoordination.RouteCoordinator.PrepareAddressChange | internal/agent/reconciler/v2_reconciler.go:459-482 | On success the VIP is no longer tracked under another address, and the router agrees there unless the route was up without an entry. |
| RouteCoordination.RouteCoordinator.Delete | internal/agent/reconciler/v2_reconciler.go:484-501 | Without an error the key is gone from bookkeeping, and the router agrees if and only if the address had an entry or its route was not announced. |
| RouteCoordination.RetriedDeleteForgetsTheRoute | internal/agent/reconciler/v2_reconciler.go:484-501 | A concrete failed delete after which the retry reports success while the route stays announced. |
| RouteCoordination.LeaveMoves | internal/agent/reconciler/v2_reconciler.go:315-336 | Taking a key off an address moves that key only and keeps every other key at its one address. |
| RouteCoordination.ServeMoves | internal/agent/reconciler/v2_reconciler.go:338-360 | Listing a key on an address moves that key only. |
| RouteCoordination.DrainMoves | internal/agent/reconciler/v2_reconciler.go:375-420 | Taking a drain, reconciling and perhaps giving it back moves that key only and loses no other drain. |
| RouteInterleaving.OneAddressPerVip | internal/agent/reconciler/v2_reconciler.go:315-501 | Under any interleaving of critical sections across keys, a VIP is listed on at most one address, the one it is tracked under. |
| RouteInterleaving.RunKeepsInv | internal/agent/reconciler/v2_reconciler.go:216-501 | Every reachable state of the interleaved sections keeps one home per VIP and every section's own assumptions. |
| VipReconciliation.VipReconciler.ReconcileApplied | internal/agent/reconciler/v2_reconciler.go:995-1232 | For every combination of router, dataplane, store, rollout and context failures, with other VIPs' calls in between: no exit leaves this VIP owning a drain; a planned apply and a recreate happen only while the route is withdrawn; the intent stays pending until a successful apply is committed; the listing is stated for each outcome; after a failed recreate the VIP counts as serving exactly when it has healthy backends and the dataplane called it safe to restore, and only then is the old VIP reported as retained; a VIP without healthy backends goes on serving only if it did and the run ended before publishing it; a published route agrees with the router unless a repair gave the drain back early and some router call failed during the run. |
| VipReconciliation.FailedCommitKeepsServing | internal/agent/reconciler/v2_reconciler.go:1118-1137 | A concrete run after which a VIP without healthy backends is still listed as serving. |
| VipReconciliation.VipReconciler.RepairTuningDrift | internal/agent/reconciler/v2_reconciler.go:1476-1559 | A repair is blocked, once it holds the rollout, exactly while another VIP drains the address or serves on it; it recreates at most once and only behind a withdrawn route, and says truthfully whether the drain was given back. After a recreate the VIP is listed as serving exactly when it failed, was safe to restore and has healthy backends; the old VIP is reported as retained exactly when, besides, its route is back without an error, and then the router agrees. |
| VipReconciliation.VipReconciler.ReleaseUpdateDrain | internal/agent/reconciler/v2_reconciler.go:1301-1311 | Giving the drain back cannot get stuck: whatever fails, the VIP owns no drain afterwards and is listed with the given flag; on success the router agrees. |
| VipReconciliation.VipReconciler.DrainBeforeApply | internal/agent/reconciler/v2_reconciler.go:1035-1090 | The apply goes on only while the drain is held; it is refused exactly while another VIP drains the address, whoever serves on it; every failure gives the drain back. |
| VipReconciliation.VipReconciler.PublishRoute | internal/agent/reconciler/v2_reconciler.go:1207-1214 | The final publication leaves no drain; on success the router agrees if this run held no drain, still held it, or no router call failed meanwhile. |
| VipReconciliation.VipReconciler.HandleDelete | internal/agent/reconciler/v2_reconciler.go:1577-1625 | The dataplane is asked only after the route call succeeded; the route is really settled at that point if and only if the coordinator knew the address or its route was down; the deletion is done exactly when the dataplane removal worked, and local records are dropped only then. |
| VipReconciliation.RetriedDeleteReachesTheDataplane | internal/agent/reconciler/v2_reconciler.go:1577-1625 | A concrete retried deletion that asks the dataplane to remove the VIP although its route was never withdrawn. |
| Lifecycle.OneReconcilerPerKey | internal/agent/reconciler/v2_reconciler.go:543-621 | A key never has two living reconcilers, is never served and being deleted at once, and is queued for recreation only while being deleted. |
| Lifecycle.IncarnationsDoNotInterleave | internal/agent/reconciler/v2_reconciler.go:760-837 | Every dataplane removal of an old incarnation precedes every apply of the next. |
| Lifecycle.StopsOnlyRemoved | internal/agent/reconciler/v2_reconciler.go:795-835 | A reconciler's loop ends only after it removed its VIP from the dataplane, and after asking for that it never applies again. |
| Lifecycle.ManagedIffWanted | internal/agent/reconciler/v2_reconciler.go:543-585 | In every run a key is in service or queued exactly when its last seen object was not deleted since and was not struck, that is, hit by the deletion of another object of the same name while in service; a queued object is the wanted one; if deletions in service name the wanted object, nothing is struck. |
| Lifecycle.ForeignDeletionStrikes | internal/agent/reconciler/v2_reconciler.go:566-585 | A concrete run in which a late deletion of the previous object takes the newer one out of service, and nothing is queued. |
| Lifecycle.RecreateTakesLatest | internal/agent/reconciler/v2_reconciler.go:587-621 | After cleanup a key is recreated exactly when, by the watcher's reports, an object of that name exists that was not struck, and with that object. |
| Lifecycle.HandoffIsCurrentIff | internal/agent/reconciler/v2_reconciler.go:587-621 | The late first update of a recreated reconciler leaves it with the object that is wanted by the watcher's reports if and only if no newer one was delivered before it. |
| Lifecycle.SettledIsCurrentUnlessOvertaken | internal/agent/reconciler/v2_reconciler.go:543-621 | A settled reconciler works on the object that is wanted by the watcher's reports exactly when it was not overtaken that way. |
| Lifecycle.OvertakingHappens | internal/agent/reconciler/v2_reconciler.go:587-621 | A concrete run in which an old object stays in force for good. |
| VppDataPlane.SameAttributesSameProgramming | internal/agent/dataplane/vpp.go:769-804 | VIPs with equal effective attributes name the same tuple, ask for the same slot and match the same details. |
| VppDataPlane.MatchesIffForwards | internal/agent/dataplane/vpp.go:990-1011 | The details of a programmed VIP match exactly when their encapsulation, DSCP for L3DSR, service type and port are, in the codes of the VPP API, the VIP's own or the configured ones; addVIP asks for such a VIP. |
| VppDataPlane.TupleNames | internal/agent/dataplane/vpp.go:973-975 | A VIP's tuple is its address, its protocol number and the low 16 bits of its port; an unknown protocol has none. |
| VppDataPlane.AttributesTellForwarding | internal/agent/dataplane/vpp.go:757-804 | Valid effective attributes are equal exactly for VIPs with the same address, port, protocol, encapsulation and, for L3DSR, DSCP. |
| VppDataPlane.LastBackendCounts | internal/agent/dataplane/vpp.go:487-490 | Of several backends with one address the last is wanted. |
| VppDataPlane.Vpp.ReconcileBackends | internal/agent/dataplane/vpp.go:480-542 | However calls fail in the two loops, cache and device follow each other; success leaves exactly the wanted backends. |
| VppDataPlane.Vpp.DeleteForAttributeChange | internal/agent/dataplane/vpp.go:256-275 | On success the cached tuple is free and the entry gone; on failure nothing changed. |
| VppDataPlane.Vpp.RefreshCached | internal/agent/dataplane/vpp.go:277-309 | Finds the VIP forwarding as asked and takes over exactly what VPP holds, or leaves its tuple free; deletes nothing that forwards as asked. |
| VppDataPlane.Vpp.AdoptExisting | internal/agent/dataplane/vpp.go:317-345 | Adopts a VIP that forwards as asked with exactly the backends VPP holds, or leaves its tuple free. |
| VppDataPlane.Vpp.PrepareEntry | internal/agent/dataplane/vpp.go:161-213 | Up to the backends an apply either fails without making a true cache lie, or ends with an entry of the desired attributes; a VIP that was deleted on the way and not added again is absent from the device, cached before or not. |
| VppDataPlane.Vpp.ApplyVIP | internal/agent/dataplane/vpp.go:146-226 | A success that consulted the device leaves at the VIP's address, protocol and port its own or the configured encapsulation, DSCP and service type and exactly the healthy backends, nothing at the old tuple, and a matching 16-bit flow table length or a recorded drift, whatever cache and device held before; with all backends down and the configuration to fail closed nothing changes; failures never make a true cache lie, and what left the cache, or was found uncached and deleted, is gone from the device. |
| VppDataPlane.Vpp.RemoveVIP | internal/agent/dataplane/vpp.go:228-254 | Success leaves the target tuple free and the key uncached; failure changes nothing; a cached VIP that the device lost can never be removed. |
| VppDataPlane.Vpp.NeedsDrainForRetainedVIP | internal/agent/dataplane/vpp.go:376-412 | Without an error the answer is exactly whether the cached VIP asks for other forwarding or the device holds the tuple with other forwarding, the only cases in which an apply deletes; a cached VIP that does not stand on the device is marked to be verified. |
| VppDataPlane.Vpp.PlanVIPUpdate | internal/agent/reconciler/v2_reconciler.go:898-929 | For a VIP that keeps its address a drain is planned exactly on an error, when the last applied VIP at that address asked for other forwarding, or when an apply would have something to delete; without a drain no rollout key is taken, otherwise the sorted keys of exactly the disturbed addresses are. |
| VppDataPlane.Vpp.NeedsDrain | internal/agent/reconciler/v2_reconciler.go:931-953 | The same answer for the two checks together, an error counting as a need. |
| VipUpdate.PlanAndApply | internal/agent/reconciler/v2_reconciler.go:898-929 | Planned, prepared, drained and applied with nothing in between: an apply that deletes a VIP from the device finds the route of its address withdrawn, or the VIP was tracked under another address and has left it, with the router agreeing there unless the route was up without an entry. |
| VppDataPlane.Vpp.RecreateVIP | internal/agent/dataplane/vpp.go:414-462 | Refused exactly when all backends are down and the configuration is to fail closed; the route counts as safe to restore only when the old VIP was seen in place; a failed add leaves neither entry nor VIP; success programs exactly what was asked and clears the drift. |
| VppDataPlane.Vpp.SetBackends | internal/agent/dataplane/vpp.go:464-478 | Keeps a true entry true when the caller's VIP names the cached tuple; other keys are untouched. |
| VppDataPlane.Vpp.AddBackend | internal/agent/dataplane/vpp.go:593-609 | A true entry stays true if and only if the caller's VIP names the cached tuple or the backend was cached already; another key's true entry turns false exactly when it holds the named tuple. |
| VppDataPlane.Vpp.RemoveBackend | internal/agent/dataplane/vpp.go:611-627 | A true entry stays true if and only if the caller's VIP names the cached tuple or the backend was not cached; another key's true entry turns false exactly when it holds the named tuple. |
| VppDataPlane.AddingElsewhereLies | internal/agent/dataplane/vpp.go:593-609 | A concrete addition under another port that makes the cache lie. |
| VppDataPlane.RemovingElsewhereLies | internal/agent/dataplane/vpp.go:611-627 | The same for a removal. |
| VppDataPlane.Vpp.RunOperations | internal/agent/dataplane/vpp.go:146-627 | From an empty cache, after any sequence of operations with any failures, every entry's tuple, attributes and backends are what the device holds, up to the first operation on a tuple that another key holds at that moment or a backend operation that names another tuple than the cache. |
| EventGate.MergingTracks | internal/agent/watcher/watcher.go:402-484 | Without a revival, however the valid events of one key are cut and merged, the handler ends with the generation and spec of the informer's object, and with nothing if that is gone or terminating. A revival is a run of updates from a terminating object to a live one with the same generation and spec. |
| EventGate.HarmlessIff | internal/agent/watcher/watcher.go:402-484 | Merging leaves the handler with the generation and spec of the informer's object, at every moment and for every timing, if and only if there is no revival. |
| EventGate.SameAsUnmergedIff | internal/agent/watcher/watcher.go:402-484 | Merged delivery serves the same generation and spec as delivery one by one, at every moment and for every cut, if and only if there is no revival. |
| EventGate.RecreationCanBeMissed | internal/agent/watcher/watcher.go:460-484 | A concrete VIP, deleted and recreated with the same spec between two listings, that is never served without merging and served with it. |
| EventGate.RevivalIsMissed | internal/agent/watcher/watcher.go:460-484 | Every revival has a delivery that leaves the handler behind the informer. |
| EventGate.KeyNamesObject | internal/agent/watcher/watcher.go:428-444 | Events share a key exactly when they are about the same namespace and name; without one of them there is no key. |
| GateInterleaving.Gate.Enqueue | internal/agent/watcher/watcher.go:309-327 | An event is merged into what is pending for its key, queued, or handed back for direct delivery once released. |
| GateInterleaving.Gate.TakePending | internal/agent/watcher/watcher.go:329-343 | Takes the pending events in key order, then the unkeyed ones, and leaves nothing behind. |
| GateInterleaving.Gate.BeginRelease | internal/agent/watcher/watcher.go:279-287 | Only one caller ever gets to deliver the pending events. |
| GateInterleaving.Gate.NextBatchOrOpen | internal/agent/watcher/watcher.go:289-306 | The gate opens only when nothing arrived while the previous batch was delivered. |
| GateInterleaving.NothingStranded | internal/agent/watcher/watcher.go:279-343 | In every interleaving, once released nothing is pending and every event was delivered, in order per key, alone or merged; unkeyed events one by one. |
| GateInterleaving.SameAsUngated | internal/agent/watcher/watcher.go:279-484 | After release, and without a revival, the handler serves the generation and spec that it would have served without the gate, which are those of the informer's object. |
| GateInterleaving.ServesAnEarlierView | internal/agent/watcher/watcher.go:279-484 | At every moment of every run without a revival the handler serves the generation and spec that the informer's store held at some earlier point. |
| GateTimings.SameAsUngatedIff | internal/agent/watcher/watcher.go:279-484 | For a valid stream of one key, every run of the gate, with any events of other keys and opened at any point, ends with the same served generation and spec as without the gate if and only if there is no revival. |
| GateTimings.TimingExists | internal/agent/watcher/watcher.go:279-343 | Every way of cutting a key's events into merged deliveries is the timing of some run of the gate. |
| GateInterleaving.RunKeepsInv | internal/agent/watcher/watcher.go:279-343 | In every reachable state delivered, batched, pending and direct events of a key together account for everything received. |
| HealthyBitmap.CountConfiguredHealthy | internal/agent/status/updater.go:210-223 | The number of distinct configured addresses that are healthy. |
| HealthyBitmap.BuildBackendStatuses | internal/agent/status/updater.go:225-247 | The first 1024 backends with their health, in order. |
| HealthyBitmap.BuildHealthyBackendBitmap | internal/agent/status/updater.go:249-267 | The report decodes to bytes whose bit i is set exactly when backend i is healthy; it is empty exactly when no configured backend is. |
| HealthyBitmap.HexRoundTrip | internal/agent/status/updater.go:266 | Decoding the hexadecimal text gives the bytes back. |
| HealthyBitmap.HexDigits | internal/agent/status/updater.go:266 | Two lower-case hexadecimal digits per byte, the high one first. |
| HealthyBitmap.TrimZeros | internal/agent/status/updater.go:260-265 | Dropping zero bytes at the end loses no bit. |
| StatusAggregation.AddHealthyBackendsFromBitmap | internal/agent/status/updater.go:497-515 | Adds exactly the backends whose bit is set, and nothing for an empty or unreadable bitmap. |
| StatusAggregation.AggregateHealthyBackends | internal/agent/status/updater.go:470-495 | The union of the observations' contributions, and the larger of its size and the largest claimed count. |
| StatusAggregation.ClaimedIsLargest | internal/agent/status/updater.go:470-525 | The claimed count is the largest count of an observation without a readable bitmap, not below zero and not above the number of backends. |
| StatusAggregation.BuildReport | internal/agent/status/updater.go:141-158 | What an agent writes reports exactly what it sees. |
| StatusAggregation.ReportContribution | internal/agent/status/updater.go:470-515 | A report contributes exactly the agent's configured healthy addresses, however its details were cut, and claims no count of its own. |
| StatusAggregation.UnionOfReports | internal/agent/status/updater.go:470-525 | For any number of backends and agents the aggregate of reports is the union of the agents' configured healthy addresses and nothing else is counted. |
| AgentStatusList.SortedIsStableSort | internal/agent/status/updater.go:356-364 | The order used for capping is a permutation, sorted by update time and agent ID, that keeps equals in place. |
| AgentStatusList.CapKeepsNewest | internal/agent/status/updater.go:351-366 | At most 256 observations are kept, none is invented, and nothing dropped was updated after anything kept; among equal times the smaller agent ID stays. |
| AgentStatusList.ClampMeans | internal/agent/status/updater.go:297-324 | Clamping moves the time to live to the nearest value from zero to an hour, keeps the first 1024 backends and nothing else changes. |
| AgentStatusList.SanitizeAgentStatuses | internal/agent/status/updater.go:326-349 | The copy-on-write loop equals clamping every observation and then keeping the 256 newest. |
| AgentStatusList.SanitizeIsIdempotent | internal/agent/status/updater.go:326-366 | Sanitizing twice is sanitizing once. |
| AgentStatusList.UpsertAgentStatus | internal/agent/status/updater.go:382-399 | The loop replaces in place, drops other generations and appends only a new agent. |
| AgentStatusList.UpsertContents | internal/agent/status/updater.go:382-399 | The result is the new observation and the other agents' of this generation; agent IDs stay unique. |
| AgentStatusList.SplitAgentStatuses | internal/agent/status/updater.go:412-451 | Splits by age: fresh up to the agent's own time to live, expired for a week, then dropped. |
| AgentStatusList.OfAgeMembers | internal/agent/status/updater.go:412-434 | An observation is in a part exactly when it is stored and of that age. |
| AgentStatusList.AgeByLifetime | internal/agent/status/updater.go:412-451 | An observation of the generation is fresh for its own time to live, else the given one, else two minutes, at most an hour, and is then expired until it is a week old. |
| VipStatus.AggregateServing | internal/agent/status/updater.go:540-605 | True exactly when some fresh agent reports True; else Unknown when anything is missing, unknown, expired or absent; else False. |
| VipStatus.ServingVerdictIff | internal/agent/status/updater.go:540-605 | Serving is True exactly when some fresh agent reports True, and False exactly when there are fresh agents, all report False and nothing has expired. |
| VipStatus.RouteVerdictIff | internal/agent/status/updater.go:664-730 | Advertised is True exactly when some fresh agent reports True and every one reports True or False, and False exactly when there are fresh agents, all report False and nothing has expired. |
| VipStatus.AggregateRouteAdvertised | internal/agent/status/updater.go:664-730 | Unknown outweighs True, True outweighs expired, and False is left for complete negative reports. |
| VipStatus.AggregateDataPlaneReady | internal/agent/status/updater.go:607-662 | The first report other than True, else Unknown for a missing one, else True. |
| VipStatus.DataPlaneReadyIff | internal/agent/status/updater.go:607-662 | True exactly when there is a fresh agent and all report True. |
| VipStatus.VerdictsIgnoreOrder | internal/agent/status/updater.go:540-730 | Reordering the agents changes neither the serving nor the route verdict. |
| VipStatus.DataPlaneIgnoresOrderIff | internal/agent/status/updater.go:607-662 | The data plane verdict is independent of the agents' order if and only if not both False and Unknown are reported. |
| VipStatus.OrderCanDecide | internal/agent/status/updater.go:607-662 | Two concrete agents whose order decides between False and Unknown. |
| VipStatus.VirtualIPStatus.RefreshAggregateStatus | internal/agent/status/updater.go:403-410 | Generation, totals, count, details and verdicts come from the observations that are fresh now; the rest is kept as expired or dropped. |
| VipStatus.VirtualIPStatus.ApplyBackends | internal/agent/status/updater.go:453-459 | Totals, count and the detail list follow from the aggregate. |
| VipStatus.VirtualIPStatus.ApplyConditions | internal/agent/status/updater.go:461-467 | The three agent-owned conditions are replaced by their verdicts. |
| VipStatus.VirtualIPStatus.UpdateVIPStatus | internal/agent/status/updater.go:110-167 | IDs stay unique, at most 256 observations stay; the new observation replaces the agent's old one and all others stay as long as their age and the cap allow; the count is the size of the union of what the reporting agent and exactly the other agents with a fresh stored observation last saw among the configured backends. |
| StatusRuns.RunUpdates | internal/agent/status/updater.go:110-167 | After any sequence of reports on one generation, in the order of their times and by no more than 256 agents, the count is the number of configured backends that some agent whose last report is still fresh saw healthy in it, and Serving is True exactly when such a report says so. |
| Hysteresis.EngineFollowsRule | internal/agent/healthcheck/v2_engine.go:610-646 | For thresholds of at least one, the state is given by the most recent run of results that reached its threshold; Unknown exactly when none did. |
| Hysteresis.TrackerMatchesEngineIff | internal/agent/healthcheck/state.go:95-175 | The older tracker, which resets its counters on transitions, goes through the same states for all results if and only if both thresholds are at least one. |
| Hysteresis.CountersAreRuns | internal/agent/healthcheck/v2_engine.go:625-643 | The counters are the lengths of the last run of equal results. |
| Hysteresis.Distinguish | internal/agent/healthcheck/state.go:126-148 | For a threshold below one, one or two results that tell the implementations apart. |
| HealthEngine.Engine.StartVIP | internal/agent/healthcheck/v2_engine.go:255-329 | A new epoch; surviving backends keep their counters, others take the stored ones or start afresh; an invalid spec changes nothing. |
| HealthEngine.Engine.ApplyResult | internal/agent/healthcheck/v2_engine.go:610-680 | Only a result of the registered epoch and a known backend steps its counters; a transition is reported exactly when the state changed. |
| HealthEngine.StateTracker.UpdateProbeResult | internal/agent/healthcheck/state.go:95-175 | Steps the tracker's machine for the key and reports the states before and after. |
| HealthRuns.OnlyCurrentResultsCount | internal/agent/healthcheck/v2_engine.go:610-625 | In every run, with starts, stops, failed saves and crashes at any moment, a result counts exactly when its probe was sent by the instance that is registered now, for a backend of it; it is counted once, with the thresholds in force, and for its own backend only. |
| HealthHistory.CountersReplayInOrder | internal/agent/healthcheck/v2_engine.go:255-329 | In every run whatsoever, running counters, the stored record and the record being written are replays of processed results, in their order and each counted once. |
| HealthRuns.CountersReplayEverything | internal/agent/healthcheck/v2_engine.go:255-329 | Through updates, stops, restarts, failed saves and crashes, a running backend's counters are the replay of every processed result that was not lost in a crash, if the starts that touch this backend found it running or fully saved and readable. |
| HealthRuns.CrashKeepsAPrefix | internal/agent/healthcheck/v2_engine.go:648-669 | If the starts that touch this backend found it running or fully saved and readable, what a crash leaves in the store is the replay of a prefix of the processed results, also when saves failed. |
| HealthRuns.CrashLosesAtMostOne | internal/agent/healthcheck/v2_engine.go:648-669 | If besides no save of the backend failed, a crash at any moment loses at most its last processed result, and only while that was being saved. |
| HealthRuns.StartContinuesIff | internal/agent/healthcheck/v2_engine.go:279-309 | A start continues from everything processed if the backend was running, or everything is saved and readable; and only then, as long as at most one result is unsaved. |
| HealthRuns.RacingStartForgets | internal/agent/healthcheck/v2_engine.go:648-669 | A concrete run in which a stop and a start between a result and its save forget the result. |
| JsonValues.InterfaceEqualIff | internal/agent/state/manager.go:441-492 | The one-sided walk decides equality for values without unlisted types, and never accepts the others. |
| JsonValues.DeepCopyIsEqual | internal/agent/state/manager.go:397-422 | A deep copy is the same value. |
| JsonValues.CopyComparesEqualIff | internal/agent/state/manager.go:397-492 | A value compares equal to its deep copy if and only if it holds no unlisted type. |
| JsonValues.UnlistedDiffersFromItself | internal/agent/state/manager.go:441-492 | A concrete option that differs from its own copy. |
| ConfigDiff.VipConfigEqual | internal/agent/state/manager.go:319-349 | The loops compute the one-sided comparison of fields, health check and backends by ID. |
| ConfigDiff.ConfigEqualIff | internal/agent/state/manager.go:311-438 | With unique backend IDs that comparison is equality of everything compared, in any backend order, for plain health check options. |
| ConfigDiff.Manager.UpdateConfig | internal/agent/state/manager.go:49-58 | The three look-up maps hold the stored configuration. |
| ConfigDiff.Manager.GetBackendsByVIP | internal/agent/state/manager.go:113-130 | With unique IDs the look-up maps lead back to exactly the VIP's backends, in their order. |
| ConfigDiff.IndexConfig | internal/agent/state/manager.go:160-184 | Later entries win, and every VIP's backend IDs are listed in order. |
| ConfigDiff.Manager.ComputeDiff | internal/agent/state/manager.go:234-308 | Each of the five lists holds exactly the entries it should, each once; a missing configuration removes everything. |
| ConfigDiff.VipPatchLaw | internal/agent/state/manager.go:234-308 | Old minus removed and modified plus added and modified is the new set of VIPs, up to what is compared. |
| ConfigDiff.BackendPatchLaw | internal/agent/state/manager.go:286-305 | Old minus removed plus added is the new set of backends, up to what is compared. |
| ConfigDiff.EmptyIffNoVipChange | internal/agent/state/manager.go:504-510 | With unique IDs the whole difference is empty exactly when its three VIP lists are. |
| StartupCleanup.Agent.CleanupRetainedVIP | cmd/arcalb-agent/main.go:568-608 | Route, dataplane, record, health states in that order, stopping at the first failure; the record is gone exactly when the first three succeeded. |
| StartupCleanup.Agent.CleanupStale | cmd/arcalb-agent/main.go:528-563 | Whatever fails, only stale records are touched; every removal follows the withdrawal of its route unless that is protected, and every forgotten record follows its removal. |
| StartupCleanup.Agent.CleanupStaleLastConfigs | cmd/arcalb-agent/main.go:452-566 | No protected address is ever withdrawn, so that its route stays announced; the dataplane gives up only stale VIPs, each after its unprotected route; a record goes only after its dataplane removal; health states go only for vanished keys; and without an error exactly the records that are preserved or identical in address, port, protocol, encapsulation and DSCP stay, and no health state of a vanished record's key. |
| StartupCleanup.LiveTupleRemovedIff | cmd/arcalb-agent/main.go:528-563 | Without an error, the dataplane is asked to remove the tuple of a live VIP exactly when a record names it under the same key with another encapsulation or DSCP, or under a key that is gone or wants something else. |
| StartupCleanup.ChangedEncapIsRemoved | cmd/arcalb-agent/main.go:544-549 | A concrete live VIP whose tuple is removed while its route stays protected. |
| StartupCleanup.Protect | cmd/arcalb-agent/main.go:520-526 | The protected addresses are those of valid live VIPs and of records kept for an invalid current spec. |
| StartupCleanup.IndexCurrent | cmd/arcalb-agent/main.go:477-494 | Terminating VIPs are ignored, invalid ones only claim their key. |
| StartupCleanup.DecodeAll | cmd/arcalb-agent/main.go:496-518 | Every decodable record is listed once, and an undecodable one is reported. |
| StartupCleanup.WellFormedIff | cmd/arcalb-agent/main.go:617-621 | A record's key is accepted exactly when it is a non-empty namespace without a slash, a slash and a non-empty name. |

## Left out

Assumptions of the model:

- Leases: one shared monotone clock, distinct non-empty holder identities, one-to-one lease names, and nobody else deletes Lease objects.
- Routes: a failed router call has no effect, and calls on one address do not overlap; only the bookkeeping theorem of RouteInterleaving covers overlapping calls.
- RouteCoordination.RouteCoordinator.ReconcileRoute: the retry loop is assumed to end, by a bound on how often the clock demands another verification while a call is running.
- VPP: a failed call has no effect, VPP refuses to add twice or delete what is absent, addresses are canonical, and no two keys name the same tuple at once.
- VppDataPlane.Vpp.RunOperations: stops at the first operation on a tuple that another key holds, and at the first backend operation that names another tuple than the cache; what the latter does is the subject of AddBackend and RemoveBackend.
- EventGate.MergingTracks: the informer calls its handler from one goroutine and every update starts from the stored object.
- HealthRuns.CountersReplayEverything: excludes runs in which a start of this very backend reads a record that is stale or unreadable, as do CrashKeepsAPrefix and CrashLosesAtMostOne; StartContinuesIff states what such a start does, and CountersReplayInOrder what holds in every run.
- HealthRuns.StartContinuesIff: the second half needs at most one unsaved result, because after several failed saves an old record can happen to hold the same counters.
- VipReconciliation.VipReconciler.PublishRoute: whether the router agrees after a failed router call of another VIP is left open; it depends on what that call had changed.
- StatusRuns.RunUpdates: with more than 256 agents the oldest observations are cut, and with times that run backwards dropped ones could become fresh again; then only the count over the stored observations, in UpdateVIPStatus, is stated.
- HealthEngine.Engine.StartVIP: epochs are unbounded; the 64-bit counter does not wrap.
- HealthEngine.StateTracker.UpdateProbeResult: two identifiers joined by a colon share one entry with any other pair that joins to the same text, as in the source.
- AgentStatusList.SplitAgentStatuses: time differences do not saturate and the given time is not zero.
- StartupCleanup.Agent.CleanupStaleLastConfigs: the lease around each cleanup is reduced to failing before or after its body; a failed call has no effect.
- ConfigDiff.VipPatchLaw: encapsulation, DSCP and timestamps are not compared by the source, so they are not part of the law.
- JsonValues.DeepCopyIsEqual: values have no identity here, so that a copy shares no memory with its source is not stated.

Not modelled:

- Liveness: that a lease is eventually acquired, a released gate eventually opens, a reconcile eventually runs.
- Probers, vtysh, govpp messages and IP parsing: foreign calls and encodings.
- Kubernetes clients, informer caches, conflict retries, contexts, tickers, logging, tracing, metrics.
- Reasons and messages of status conditions, and the health check condition written by UpdateHealthCheckCondition.
- The other getters of the state manager.
- Worker pools and dropped probes of the health engine: a dropped probe is one that never returns.
- Shutdown: Manager.Stop and a cancelled context end reconcilers without cleanup.
- Generated code, configuration loading, REST handlers, authentication, the etcd datastore and the Octavia driver.
- The v1 path beyond its configuration difference and health tracker.
