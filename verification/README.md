# Ramen hub controller: a verified model

Ramen protects stateful workloads by moving them between the two clusters of a DRPolicy. Its hub
controller never talks to a cluster directly. It edits one ManifestWork (MW) per cluster, an agent
applies the MW to the VolumeReplicationGroup (VRG) there, the VRG controller reports status, and the
hub reads VRGs back through views that lag behind, while it rewrites the placement decision that says
where the workload runs. This project models that protocol and the smaller state machines that feed
it, and proves what they promise over every run.

`dafny verify dfyconfig.toml` checks everything.

## How the model is built

- `Protocol` holds the state of all four parties and two tables, `MayRelocate` and `MayFailover`, that
  say which single writes a reconcile may make, given the snapshot it works from and what it has
  written so far. The system is the interleaving of these writes with agents, VRG controllers and
  views; a reconcile may fail at any write, stop at any point, and lose its status.
- `Orchestration.DRPCInstance` is the reconcile itself, method by method as the source has it. Every
  write goes through `Perform`, which requires the table's permission, so `Valid()` says that the
  reconcile so far is a legal trace. `Executions.InterleavingIsExecution` turns legal traces, with the
  other parties stepping in anywhere, into executions of the system. So whatever is proved of all
  executions holds for this code, whatever fails on the way.
  What the reconcile must achieve when nothing fails is `Advances` for a relocation and
  `FailoverAdvances` for a failover.
- `RelocateSafety`, `RelocateOrder`, `RelocateGuards`, `PromotionStability`, `PromotionUndoing`, `FailoverSafety`,
  `FailoverHistory`, `FailoverCompletion` and `FailoverRetry` prove the properties of all executions.
- `Rounds`, `RelocateProgress` and `FailoverProgress` prove that fair rounds complete an action:
  every MW applied, every VRG reporting that all is well, every view refreshed, then one reconcile
  without an API failure. `RelocateWitness` and `FailoverWitness` compose the methods of
  `Orchestration.DRPCInstance` into such rounds, so the rounds the theorems speak about exist from every
  state. `StaleCompletion` and `RelocateWitness.UndoPromotion` do the same for the two failures below that
  a reconcile without any API error can bring about.
- `PlacementDecisions`, `PeerClasses`, `NetworkMapping` (with `IPv4` and `Subnets`), `Fencing`,
  `MaintenanceModes`, `HubRecovery`, `GlobalConsensus` and `ActionCounter` model one component each.

What is relied upon from code outside the model is stated as contracts:

- a VRG's spec changes only by applying its MW, and its generation rises when it does
  (`Protocol.Applied`);
- a VRG report for the current generation agrees with the spec, and the final-sync flags are raised only
  while the spec asks for that stage (`Protocol.Honest`, `Protocol.ReportOk`);
- only where a theorem says `Steady`: a report takes nothing back while the spec stays the same. The VRG
  controller does not keep this in all cases
  (internal/controller/volumereplicationgroup_controller.go:1864-1914 can set the state to Unknown again),
  so `RelocateSafety`, `RelocateGuards` and all failover theorems do without it, and for the one property that needs it
  the project also proves how it fails otherwise;
- one reconcile works from one snapshot of the views; clocks, logs, events and metrics play no part.

## What was found

- **A lost status write skips the cleanup of a failover.** The hub remembers that cleanup is due only in
  the PeerReady condition, and `updateDRPCStatus` raises the observed generation of every condition,
  stale ones included. If the status of the reconcile that promoted the target is lost, the PeerReady of
  the previous action is taken for the current one. `FailoverCompletion.SkippedCleanupExactly` gives the
  exact condition: after the promotion and before the cleanup, completion without cleanup is possible if
  and only if the stored status says PeerReady. `StaleCompletion.LoseCleanup` builds the failing run from
  `RunFailover` itself.
- **A relocation can demote its own target again** after the promotion, if a VRG controller takes a report
  back. `PromotionUndoing.PromotionUndoneExactly` gives the exact condition: the promotion is not yet seen
  in both the VRG and the view, and the relocation is not locked out. Locked out means that the target is
  not seen as Primary while the stored status has left Relocating without PeerReady; then the code refuses
  to go on, "peer is not ready", and touches nothing.
- **A metro failover to the preferred cluster can get stuck.** If the promotion fails after the old decision
  was retained, the retry takes the preferred cluster on record, the target itself, as the one to be
  fenced. `FailoverRetry` reaches that state from a settled start, and proves that no MW and no placement
  changes while the target is not fenced.
- **A manual fence blocks a later Fenced request** forever (`Fencing.ManualFenceBlocksFencing`).
- **The order of policies hides failovers from maintenance-mode pruning.** The scan stops at the first metro
  policy of the cluster, so a regional failover behind it is not listed and its mode can be pruned
  (`MaintenanceModes.MissedExactly`, `MaintenanceModes.MetroFirstPrunesNeededMode`).
- **Placing a retained cluster and then switching to it** leaves two active decisions, after which every
  operation on the list is refused (`PlacementDecisions.ReplacedThenSwitchedIsStuck`).

## Model

| member | source | states |
|---|---|---|
| `RelocateSafety.NeverTwoPrimaries` | internal/controller/drplacementcontrol.go:988-1072 | In every state of every relocation run, at most one MW and at most one VRG is Primary, and the target is Primary in either only while the old home is Secondary in both |
| `RelocateSafety.PrimaryAfterReport` | internal/controller/drplacementcontrol.go:1431-1461 | Whenever the target is Primary in MW or VRG, the old home had been applied as Secondary and had reported it for its generation with data protected |
| `RelocateOrder.StagesInOrder` | internal/controller/drplacementcontrol.go:1144-1262 | Final sync is requested only with the placement cleared; demotion only after a reported final sync that was requested; promotion only after the reported demotion; placement names the target only after it was seen Primary and ready; each of these after the one before |
| `RelocateGuards.LeftOnlyWhenSafe` | internal/controller/drplacementcontrol.go:1040-1072 | Whenever a final sync is asked of the old home, its MW is not Primary or the placement does not name it, an earlier reconcile had seen it Primary with data ready and cluster data protected for its generation, a target that was not fenced under a synchronous policy, and a group in agreement |
| `PromotionStability.PromotionIsStable` | internal/controller/drplacementcontrol.go:1431-1461 | Once the target's MW is Primary it is Primary in every later state of the run, if reports are steady |
| `PromotionUndoing.PromotionUndoneExactly` | internal/controller/drplacementcontrol.go:1431-1461 | Without steady reports: for every run that has promoted its target and is between reconciles, some continuation demotes the target if and only if VRG and view do not both show it Primary and the relocation is not locked out |
| `PromotionUndoing.UnsettledReportUndoesPromotion` | internal/controller/drplacementcontrol.go:1587-1613 | From any such state with the target not seen Primary and a relocation that may go on, one unsettled report leads to its demotion |
| `RelocateWitness.UndoPromotion` | internal/controller/drplacementcontrol.go:1431-1461 | The same demotion made by `RunRelocate` itself, as an execution |
| `RelocateProgress.RelocationCompletes` | internal/controller/drplacementcontrol.go:1014-1071 | From any state of a run between reconciles, six or more fair rounds end Relocated, Completed, PeerReady and placed on the target, with both MWs carrying the action and the other one a plain Secondary that lists VolSync destinations exactly if the policy is asynchronous and the target has VolSync volumes |
| `RelocateProgress.RoundLowersRank` | internal/controller/drplacementcontrol.go:1144-1262 | Every fair round lowers the measure over final sync, demotion, promotion and cleanup, and at its lowest completes the relocation |
| `RelocateWitness.RunToCompletion` | internal/controller/drplacementcontrol.go:988-1072 | From every state that satisfies the invariants, six rounds of `RunRelocate` itself, in any environments that hold nothing up, are fair and complete the relocation |
| `FailoverProgress.FailoverCompletes` | internal/controller/drplacementcontrol.go:430-510 | From any state of a run between reconciles, four or more fair rounds end FailedOver, Completed, PeerReady and placed on the target, with both MWs carrying the action and the other one a plain Secondary that lists VolSync destinations exactly if the policy is asynchronous and the target has VolSync volumes |
| `FailoverProgress.RoundLowersRank` | internal/controller/drplacementcontrol.go:1078-1141 | Every fair round lowers the measure over promotion, clearing of destinations and demotion, and at its lowest completes the failover |
| `FailoverWitness.RunToCompletion` | internal/controller/drplacementcontrol.go:430-510 | From every state that satisfies the invariants, four rounds of `RunFailover` itself, in any environments that hold nothing up, are fair and complete the failover |
| `FailoverSafety.NeverZeroPrimaries` | internal/controller/drplacementcontrol.go:430-510 | In every state of every failover run some MW is Primary; the old home is never promoted; the target is never demoted |
| `FailoverHistory.PromotionAlwaysGuarded` | internal/controller/drplacementcontrol.go:621-677 | The target is Primary only after a promoting step that saw it report Secondary for its generation with group consensus, preceded by a reconcile that found the holder of the active decision fenced at its generation, or every mode on that the known volumes ask for |
| `FailoverHistory.DemotionAfterArrival` | internal/controller/drplacementcontrol.go:1078-1141 | The old home's MW is Secondary only after the target's view was Primary and ready |
| `FailoverHistory.OldPlacementSurvives` | internal/controller/drplacementcontrol.go:2392-2456 | The old home's decision stays in the list, active or retained, until a reconcile finds its MW Secondary and its view Secondary with the generation observed |
| `FailoverHistory.SnapshotsWereLive` | internal/controller/drplacementcontrol.go:2479-2511 | Every VRG a reconcile works from is a state that VRG really was in |
| `FailoverCompletion.CompletionMeansCleaned` | internal/controller/drplacementcontrol.go:2326-2390 | If no withdrawal of PeerReady is lost after the promotion, Completed is announced only after the old home was found settled as Secondary, and it stays demoted |
| `FailoverCompletion.SkippedCleanupExactly` | internal/controller/drplacementcontrol.go:2326-2352 | For every run that has promoted its target, is between reconciles and has not cleaned up, some continuation announces Completed without cleanup if and only if the stored status says PeerReady |
| `StaleCompletion.RunStale` | internal/controller/drplacementcontrol.go:454-492 | From every such state with a stale PeerReady, rounds of `RunFailover` itself announce Completed without looking at the old home |
| `StaleCompletion.LoseCleanup` | internal/controller/drplacementcontrol.go:430-510 | From every settled start, `RunFailover` with one lost status announces Completed without cleanup while the old home's VRG is Primary |
| `FailoverCompletion.LostWithdrawalSkipsCleanup` | internal/controller/drplacementcontrol_controller.go:1635-1641 | From every settled start one lost status allows an execution that announces Completed while the old home's VRG is Primary and its decision is kept |
| `Executions.InterleavingIsExecution` | internal/controller/drplacementcontrol.go:188-199 | The writes of a legal reconcile with steps of agents, VRG controllers and views put anywhere between them are an execution of the system, with the same writes and the same final store |
| `Executions.ReconcileIsExecution` | internal/controller/drplacementcontrol.go:188-199 | A whole reconcile, with its status saved or lost, is an execution from one state between reconciles to the next |
| `Orchestration.DRPCInstance.Perform` | internal/controller/drplacementcontrol.go:2706-2722 | One write, allowed by the table, takes effect or fails without a trace; without faults it takes effect |
| `Orchestration.DRPCInstance.SetDRState` | internal/controller/drplacementcontrol.go:2724-2740 | Changes the phase and nothing else, and accounts every change of it in the action counters; a relocation leaves Relocating only for Relocated, and that only with a ready target |
| `Orchestration.DRPCInstance.SetStatusInitiating` | internal/controller/drplacementcontrol.go:3051-3065 | Enters Initiating from the five phases at rest, which the counters observe, and changes nothing otherwise |
| `Orchestration.DRPCInstance.UpdatePreferredDecision` | internal/controller/drplacementcontrol.go:1633-1641 | Records the preferred cluster only if none is recorded |
| `Orchestration.DRPCInstance.UpdateVRGState` | internal/controller/drplacementcontrol.go:2588-2630 | Success leaves the MW in the asked role; an update is reported exactly when one was needed and made; a missing MW is told apart from a failure |
| `Orchestration.DRPCInstance.MoveVRGToSecondaryEverywhere` | internal/controller/drplacementcontrol.go:1587-1613 | Success, certain without faults, means that every primary MW was demoted and no other MW changed |
| `Orchestration.DRPCInstance.EnsureVRGIsSecondaryOnCluster` | internal/controller/drplacementcontrol.go:2479-2511 | True exactly if the cluster was reached and its VRG, if any, reports Secondary for its generation |
| `Orchestration.DRPCInstance.EnsureVRGIsSecondaryEverywhere` | internal/controller/drplacementcontrol.go:2462-2476 | True exactly if that holds on every cluster not skipped, in whatever order the policy lists them |
| `Orchestration.DRPCInstance.EnsureDataProtected` | internal/controller/drplacementcontrol.go:2520-2586 | True exactly if the other cluster was reached, holds a VRG, and its data is protected for its generation |
| `Orchestration.DRPCInstance.UpdateVRGToPrepareForFinalSync` | internal/controller/drplacementcontrol.go:2638-2670 | Success means the prepare flag is set; it is written at most once |
| `Orchestration.DRPCInstance.UpdateVRGToRunFinalSync` | internal/controller/drplacementcontrol.go:2672-2704 | Success means the run flag is set; it is written at most once |
| `Orchestration.DRPCInstance.PrepareForFinalSync` | internal/controller/drplacementcontrol.go:1204-1232 | Done exactly if the VRG reported the stage; otherwise only the request is written |
| `Orchestration.DRPCInstance.RunFinalSync` | internal/controller/drplacementcontrol.go:1234-1262 | Done exactly if the VRG reported the stage; otherwise only the request is written |
| `Orchestration.DRPCInstance.QuiesceAndRunFinalSync` | internal/controller/drplacementcontrol.go:1144-1202 | Done means both stages reported and the placement cleared, with no MW changed; without faults, what each stage writes |
| `Orchestration.DRPCInstance.SetupRelocation` | internal/controller/drplacementcontrol.go:1431-1461 | Succeeds exactly if the old home is settled with protected data; touches MWs only while it is not settled, and then demotes every primary |
| `Orchestration.DRPCInstance.CreateVRGManifestWorkAsPrimary` | internal/controller/drplacementcontrol.go:1504-1537 | Success means the MW is Primary, and says whether it had to be changed |
| `Orchestration.DRPCInstance.SwitchToCluster` | internal/controller/drplacementcontrol.go:1473-1502 | Success means placed on a ready, promoted target; without faults an unpromoted target is promoted and then waited for |
| `Orchestration.DRPCInstance.RelocateTo` | internal/controller/drplacementcontrol.go:1392-1429 | PeerReady is withdrawn; without faults an unsettled old home is demoted, and a settled protected one leads to the promotion of the target |
| `Orchestration.DRPCInstance.ValidateAndSelectCurrentPrimary` | internal/controller/drplacementcontrol.go:1264-1327 | Fails exactly on no VRG or two primaries, and otherwise selects the primary if there is one |
| `Orchestration.DRPCInstance.ReadyToSwitchOver` | internal/controller/drplacementcontrol.go:1331-1353 | True exactly if the target is known and not fenced (metro) and the home is data ready and protected for its generation |
| `Orchestration.DRPCInstance.CheckGlobalAction` | internal/controller/drplacementcontrol_global.go:63-121 | True exactly if there is consensus; otherwise at most the progression changes |
| `Orchestration.DRPCInstance.FinishRelocation` | internal/controller/drplacementcontrol.go:1014-1041 | Done means Relocated, Completed, tallied, placed and both MWs carrying the action; without faults a ready target is placed and cleared of destinations, and cleanup completes when it can; the preferred cluster is on record |
| `Orchestration.DRPCInstance.StartRelocation` | internal/controller/drplacementcontrol.go:1043-1072 | Without consensus, with an old home not ready to switch, or locked out, no MW, no placement and no PeerReady changes; without faults, each stage of leaving the old home makes its write and no other, and says so in the progression |
| `Orchestration.DRPCInstance.RunRelocate` | internal/controller/drplacementcontrol.go:988-1072 | The reconcile is legal whatever fails; Done means Relocated, Completed, tallied, placed, both MWs carrying the action, the peer listing destinations exactly if it should, and the peer seen settled unless tallied before; without faults it advances by a stage; an unmet guard changes no MW and no placement; a relocation that enters its phase from rest or from Initiating is counted once, and not again |
| `Orchestration.DRPCInstance.EnsureVRGManifestWork` | internal/controller/drplacementcontrol.go:1695-1729 | Refreshes only a Primary MW, and changes no role |
| `Orchestration.DRPCInstance.EnsurePlacement` | internal/controller/drplacementcontrol.go:2053-2079 | Success means the placement names the cluster; a placement that already does is not rewritten |
| `Orchestration.DRPCInstance.ResetVolSyncRDOnPrimary` | internal/controller/drplacementcontrolvolsync.go:388-431 | Success means no destinations are left on the primary, unless VolSync is disabled; no role changes |
| `Orchestration.DRPCInstance.EnsureSecondaryReplicationSetup` | internal/controller/drplacementcontrolvolsync.go:20-52 | Success means the peer's MW is a plain Secondary with the action, listing VolSync destinations exactly if the policy is asynchronous and the primary has VolSync volumes; the primary's MW is not touched |
| `Orchestration.DRPCInstance.CleanupSecondary` | internal/controller/drplacementcontrol.go:2392-2456 | Ready means the peer is Secondary in its MW and seen settled, its decision is dropped and nothing else changed; without faults that is also sufficient |
| `Orchestration.DRPCInstance.CleanupSecondaries` | internal/controller/drplacementcontrol.go:2354-2390 | Success means PeerReady is true for this generation and the peer is settled |
| `Orchestration.DRPCInstance.EnsureCleanup` | internal/controller/drplacementcontrol.go:2326-2352 | Success means tallied, by an earlier tally at this generation, in which case nothing is written, or by a peer seen settled |
| `Orchestration.DRPCInstance.EnsureCleanupAndSecondaryReplicationSetup` | internal/controller/drplacementcontrol.go:1106-1141 | Success means tallied, no destinations seen on the primary, and the peer's MW a Secondary with the destinations it should list |
| `Orchestration.DRPCInstance.EnsureActionTransition` | internal/controller/drplacementcontrol.go:1078-1104 | Done exactly when Completed, and then placed, tallied, both MWs carrying the action, the target Primary and the peer Secondary with the destinations it should list |
| `Orchestration.DRPCInstance.IsValidFailoverTarget` | internal/controller/drplacementcontrol.go:566-593 | True exactly if the target is seen Primary, or settled as Secondary |
| `Orchestration.DRPCInstance.MwExistsAndPlacementUpdated` | internal/controller/drplacementcontrol.go:1568-1585 | True exactly if the MW exists and the placement names the target |
| `Orchestration.DRPCInstance.CheckFailoverPrerequisites` | internal/controller/drplacementcontrol.go:705-788 | Met exactly if the cluster failed away from is fenced (metro), or the mode of every asking backend is reported on for the volume that stands for it (regional); the progression says which was checked |
| `Orchestration.DRPCInstance.SwitchToFailoverCluster` | internal/controller/drplacementcontrol.go:621-677 | Writes MWs or placement only with the prerequisites met for the current home, and otherwise says what is missing; without faults retains it and promotes the target with its final-sync flags cleared; the counters observe FailingOver when it is entered |
| `Orchestration.DRPCInstance.FinishFailover` | internal/controller/drplacementcontrol.go:454-492 | Done means FailedOver, Completed, tallied and placed; an unready target leaves roles, placement and PeerReady alone; without faults a ready target is placed, the old home demoted, and cleanup completes when it can or is skipped when tallied |
| `Orchestration.DRPCInstance.RunFailover` | internal/controller/drplacementcontrol.go:430-510 | The reconcile is legal whatever fails; until the target is seen Primary nothing is written unless every guard holds; without faults it promotes when they do, then places, demotes the old home, and completes with both MWs carrying the action and the peer seen settled unless tallied before; a failover that enters its phase from rest or from Initiating is counted once, and not again |
| `FailoverRetry.RetryHome` | internal/controller/drplacementcontrol.go:679-698 | After a promotion failed behind a retained decision, the retry fails away from the same cluster if and only if the preferred cluster on record is that one, or unknown with the old home's DRCluster known |
| `FailoverRetry.ReachesStuck` | internal/controller/drplacementcontrol.go:652-657 | From every settled start with the target as preferred cluster on record, a run leads to the old decision retained and the target not promoted |
| `FailoverRetry.RetryWaitsForTargetFence` | internal/controller/drplacementcontrol.go:741-757 | Over every metro continuation from there, the target is promoted only in a reconcile that finds the target itself fenced |
| `FailoverRetry.StuckWhileUnfenced` | internal/controller/drplacementcontrol.go:741-757 | As long as the target is not fenced, no reconcile changes an MW or the placement |
| `PlacementDecisions.UpdateKeepsRetained` | internal/controller/drplacementcontrol_controller.go:2133-2179 | Create/update keeps all retained entries in order and leaves exactly the new active one |
| `PlacementDecisions.OneActiveAlways` | internal/controller/drplacementcontrol_controller.go:2133-2179 | At most one active decision after every sequence of operations whose switches find one entry for their target |
| `PlacementDecisions.FreshUpdatesKeepListSound` | internal/controller/drplacementcontrol_controller.go:2259-2388 | If no update names a retained cluster, one entry per cluster is kept and all switches are unambiguous |
| `PlacementDecisions.SwitchExact` | internal/controller/drplacementcontrol_controller.go:3289-3341 | A switch leaves at most one active entry if and only if its target had at most one entry |
| `PlacementDecisions.UpdateKeepsDistinctExactly` | internal/controller/drplacementcontrol_controller.go:2133-2179 | Create/update keeps one entry per cluster if and only if the new cluster is not retained |
| `PlacementDecisions.ReplacedThenSwitchedIsStuck` | internal/controller/drplacementcontrol_controller.go:3289-3341 | Placing a retained cluster and switching to it leaves two active decisions, and every later operation is refused |
| `PlacementDecisions.RetainFirstCount` | internal/controller/drplacementcontrol_controller.go:2337-2388 | Retaining takes exactly one active entry of the cluster away, if it has one |
| `PlacementDecisions.RetainRecords` | internal/controller/drplacementcontrol_controller.go:2337-2388 | On an empty list, and on one with an active entry for the cluster, retaining leaves a retained record of it, no active entry, and no entry lost |
| `PlacementDecisions.WithoutFacts` | internal/controller/drplacementcontrol_controller.go:2259-2310 | Dropping removes exactly the retained entries of the cluster and no active one |
| `PlacementDecisions.PlacementObject.GetClusterDecision` | internal/controller/drplacementcontrol_controller.go:2010-2058 | Returns the one active decision, and none if there is not exactly one |
| `PlacementDecisions.PlacementObject.CreateOrUpdate` | internal/controller/drplacementcontrol_controller.go:2133-2179 | The stored list becomes the updated one, or stays when the write fails or the list is refused |
| `PlacementDecisions.PlacementObject.RemoveForFailover` | internal/controller/drplacementcontrol_controller.go:2259-2310 | The stored list loses the retained entries of the cluster, or stays |
| `PlacementDecisions.PlacementObject.RetainAsFailover` | internal/controller/drplacementcontrol_controller.go:2337-2388 | The stored list has the cluster's active entry retained, or a new retained entry if it was empty, or stays |
| `PlacementDecisions.PlacementObject.SwitchRetain` | internal/controller/drplacementcontrol_controller.go:3289-3341 | The stored list has the entries of the cluster active and all others retained, or stays |
| `PeerClasses.EqualClusterIDSlices` | internal/controller/drplacementcontrol.go:1736-1756 | True exactly if the lists have the same length and the same members |
| `PeerClasses.HasPeerClass` | internal/controller/drplacementcontrol.go:1808-1817 | True exactly if some entry has the storage class and the clusters |
| `PeerClasses.VRGPeerClasses.UpdatePeerClass` | internal/controller/drplacementcontrol.go:1764-1803 | The first entry with the key is merged, and no other; what merging means for a whole update is `PeerClasses.OfferIsPickedUp` |
| `PeerClasses.VRGPeerClasses.UpdatePeers` | internal/controller/drplacementcontrol.go:1820-1872 | The list becomes the result of looking up the volumes one after the other |
| `PeerClasses.OfferIsPickedUp` | internal/controller/drplacementcontrol.go:1764-1803 | The entry of a storage class in use takes over, field by field, what the policy offers for it if offloading, globality, grouping and the presence of a replication ID agree, with grouping turned on on request, and stays as it is if any of them differs |
| `PeerClasses.UnusedClassesStay` | internal/controller/drplacementcontrol.go:1820-1872 | Entries of storage classes that no volume uses stay in place unchanged |
| `PeerClasses.EveryOfferIsAdded` | internal/controller/drplacementcontrol.go:1820-1872 | Every entry the policy offers for a class is added if none of them is known yet, not only the first |
| `PeerClasses.SchemesNeverChange` | internal/controller/drplacementcontrol.go:1820-1872 | Every entry keeps its place, key and scheme; grouping may only be turned on, and only on request; distinct keys stay distinct |
| `PeerClasses.EveryVolumeIsCovered` | internal/controller/drplacementcontrol.go:1820-1872 | Every storage class in use that the policy offers has an entry |
| `PeerClasses.NewEntriesAreThePolicys` | internal/controller/drplacementcontrol.go:1864-1867 | Every added entry is an entry of the policy, unchanged |
| `PeerClasses.UpdateIsIdempotent` | internal/controller/drplacementcontrol.go:1820-1872 | Without consistency groups a second update changes nothing |
| `PeerClasses.UpdateSettlesAfterTwo` | internal/controller/drplacementcontrol.go:1820-1872 | With consistency groups a third update changes nothing |
| `PeerClasses.OneApplicationIsNotEnough` | internal/controller/drplacementcontrol.go:1779-1797 | With consistency groups the second update does change a newly added ungrouped entry |
| `PeerClasses.StaleListAgrees` | internal/controller/drplacementcontrol.go:1826-1826 | Looking a key up in the list the update started from gives the same answer as in its updated front, so sharing of storage does not matter |
| `IPv4.ParseFormat` | internal/controller/drpc_networkmapping.go:884-892 | Every address is read back from its dotted-decimal text |
| `IPv4.FormatParse` | internal/controller/drpc_networkmapping.go:884-892 | A dotted-decimal text that can be read is the canonical one |
| `IPv4.BytesRoundTrip` | internal/controller/drpc_networkmapping.go:1029-1040 | The four bytes of a 32-bit number give the number back |
| `IPv4.FromBytesRoundTrip` | internal/controller/drpc_networkmapping.go:1029-1040 | The number of four bytes gives the bytes back |
| `IPv4.BytesAreBigEndian` | internal/controller/drpc_networkmapping.go:1029-1040 | The number is the sum of its bytes by weight, the most significant one first |
| `IPv4.TextIsDottedBytes` | internal/controller/drpc_networkmapping.go:884-892 | The text of an address reads as its four bytes in that order |
| `Subnets.SubnetIsRange` | internal/controller/drpc_networkmapping.go:826-828 | Agreeing with a prefix means lying in one range of the subnet's size, inside the address space |
| `Subnets.PairedAreDisjoint` | internal/controller/drpc_networkmapping.go:596-634 | Validated CIDR pairs denote disjoint ranges of equal size |
| `Subnets.ShiftIsBijection` | internal/controller/drpc_networkmapping.go:807-843 | Translation by offset is defined exactly on the source, keeps the offset, never wraps or exceeds the destination, and is undone by the translation back |
| `NetworkMapping.DottedDecimalIsSound` | internal/controller/drpc_networkmapping.go:884-892 | Dotted-decimal reading and writing meets what the translation relies on |
| `NetworkMapping.ResolveExplicitMappings` | internal/controller/drpc_networkmapping.go:465-505 | Succeeds exactly on well-formed rows with all addresses distinct, and then yields inverse tables with no common key |
| `NetworkMapping.TablesHoldPairs` | internal/controller/drpc_networkmapping.go:471-499 | The tables hold every row both ways, and nothing else |
| `NetworkMapping.DistinctPairwise` | internal/controller/drpc_networkmapping.go:1111-1160 | The row-by-row collision checks amount to all addresses of the table being different |
| `NetworkMapping.ResolveCIDR` | internal/controller/drpc_networkmapping.go:511-634 | Succeeds exactly on two IPv4 networks of equal prefix length that differ, under exactly the two cluster keys |
| `NetworkMapping.CompileRegexRules` | internal/controller/drpc_networkmapping.go:681-704 | Succeeds exactly if every rule has a pattern that compiles and a replacement, and keeps the rules in order |
| `NetworkMapping.ResolveRegexMappings` | internal/controller/drpc_networkmapping.go:640-679 | Succeeds exactly if both directions, and no other key, have valid rules |
| `NetworkMapping.ResolveBlock` | internal/controller/drpc_networkmapping.go:414-459 | Succeeds exactly if every section present is valid and one is, and yields the tables, networks and rules those sections mean |
| `NetworkMapping.ValidBlockHolds` | internal/controller/drpc_networkmapping.go:465-704 | A valid block has an IPv4 address for each cluster in every row, an IPv4 CIDR of the same length for each, and compiling rules for each direction, under these keys and no other |
| `NetworkMapping.ResolveAndValidate` | internal/controller/drpc_networkmapping.go:367-410 | Succeeds exactly on a non-empty list of valid blocks with different NAD keys, and yields what each block means, in order; no NAD has two blocks |
| `NetworkMapping.NadKeyInjective` | internal/controller/drpc_networkmapping.go:393-399 | Different NADs have different keys, as namespaces hold no slash |
| `NetworkMapping.FindBlockIgnoresOrder` | internal/controller/drpc_networkmapping.go:712-722 | The block found for a NAD does not depend on the order of the blocks |
| `NetworkMapping.RowDecides` | internal/controller/drpc_networkmapping.go:730-798 | In a resolved block, an address a row names for the cluster it comes from becomes the normalized address the row names for the other cluster, in both directions and whatever else the block holds |
| `NetworkMapping.OffsetDecides` | internal/controller/drpc_networkmapping.go:807-843 | An address of the source network that no row names moves to the same offset of the other network, whatever the regular expressions |
| `NetworkMapping.RegexDecides` | internal/controller/drpc_networkmapping.go:851-878 | With neither, the first matching rule under the key of that direction decides; no result if what it gives is not an address, or if no rule matches |
| `NetworkMapping.ExplicitRoundTrip` | internal/controller/drpc_networkmapping.go:785-798 | An explicit hit translated there and back returns the normalized source |
| `NetworkMapping.CIDRRoundTripExactly` | internal/controller/drpc_networkmapping.go:730-777 | A CIDR hit does so if and only if its result is not an explicit address of the other side, whatever the regex rules |
| `NetworkMapping.TranslationRoundTrip` | internal/controller/drpc_networkmapping.go:730-777 | The same for whole validated configurations and any NAD |
| `Fencing.FencedMeansSeen` | internal/controller/drcluster_controller.go:1062-1123 | Over every run, spec Fenced with condition Fenced True at the current generation means that a reconcile of this generation saw every NetworkFence of the peer fenced and successful |
| `Fencing.SeenMeansFenced` | internal/controller/drcluster_controller.go:1109-1123 | The converse: a saved reconcile with fencing under way that sees all of them fenced and successful reports it |
| `Fencing.CleanMeansSeen` | internal/controller/drcluster_controller.go:1126-1189 | Over every run, spec Unfenced with condition Clean True at the current generation means that a reconcile of this generation saw every NetworkFence of the peer unfenced, or gone with no manifest left, and removed the manifests of both clusters |
| `Fencing.ManifestsGoWhenUnfenced` | internal/controller/drcluster_controller.go:1174-1189 | A manifest disappears only under spec Unfenced, in an unfencing phase, in a reconcile that saw every NetworkFence of the peer unfenced |
| `Fencing.SeenMeansUnfenced` | internal/controller/drcluster_controller.go:1174-1189 | The converse: such a reconcile ends unfenced and not fenced, and clean exactly if both removals succeed |
| `Fencing.FailureIsReported` | internal/controller/drcluster_controller.go:1191-1272 | A failed fence is reported as not fenced and a failed unfence as still fenced, with phase and manifests kept |
| `Fencing.WaitingChangesNothing` | internal/controller/drcluster_controller.go:1191-1272 | Without a failure, and until every NetworkFence is as asked for, a reconcile changes nothing |
| `Fencing.FencingStarts` | internal/controller/drcluster_controller.go:1088-1107 | A start of fencing creates a manifest for every class and reports clean and not fenced; the phase moves only if all were created |
| `Fencing.UnfencingStarts` | internal/controller/drcluster_controller.go:1153-1172 | A start of unfencing does the same and reports fenced and not clean |
| `Fencing.ManualIsReported` | internal/controller/drcluster_controller.go:909-940 | What is decided by hand or left open is reported at once and touches no manifest |
| `Fencing.LeftAloneWhenSeen` | internal/controller/drcluster_controller.go:909-940 | No requeue exactly if what the spec asks for was seen: fenced, or unfenced and cleaned, or decided by hand |
| `Fencing.NeverFencedAndClean` | internal/controller/drcluster_controller.go:1467-1650 | Over every run, Fenced and Clean are never both True |
| `Fencing.FencingStartsExactly` | internal/controller/drcluster_controller.go:1088-1107 | A reconcile leaves a manifest for every class if and only if they were there or the phase does not claim that fencing is under way |
| `Fencing.ManualFenceBlocksFencing` | internal/controller/drcluster_controller.go:914-928 | After a manual fence, a Fenced spec never creates a manifest and never becomes fenced, over any number of reconciles |
| `Fencing.ManualThenFenced` | internal/controller/drcluster_controller.go:914-928 | Such a state is reached by one reconcile and one edit |
| `Fencing.DRClusterInstance.ClusterFence` | internal/controller/drcluster_controller.go:1062-1123 | The status becomes that of the first class that is not fenced, or Fenced if there is none; without a requeue the condition holds |
| `Fencing.DRClusterInstance.ClusterUnfence` | internal/controller/drcluster_controller.go:1126-1189 | The status becomes that of the first class that is not unfenced, or that of the cleanup; requeues exactly until all are unfenced and cleaned |
| `Fencing.DRClusterInstance.CleanClusters` | internal/controller/drcluster_controller.go:1280-1308 | Clean exactly if the manifests of both clusters could be removed; requeues otherwise |
| `Fencing.DRClusterInstance.CheckStatus` | internal/controller/drcluster_controller.go:1191-1272 | Good, waiting or bad for one NetworkFence; only a bad one changes the conditions |
| `Fencing.DRClusterInstance.AdvanceToNextPhase` | internal/controller/drcluster_controller.go:1856-1872 | Moves from fencing to fenced and from unfencing to unfenced, and nowhere else |
| `Fencing.DRClusterInstance.ClusterFenceHandle` | internal/controller/drcluster_controller.go:909-940 | The whole new status and whether to requeue, for every requested state |
| `MaintenanceModes.RequiredActivations` | internal/controller/drplacementcontrol.go:790-835 | The result has one entry for every backend that asks for the failover mode, and no other |
| `MaintenanceModes.CheckActivation` | internal/controller/drplacementcontrol.go:936-966 | True exactly if the first entry with the provisioner and target of the backend reports its failover condition as True |
| `MaintenanceModes.ActivatedMeans` | internal/controller/drplacementcontrol.go:936-966 | The recursive reference says the same of every list and backend |
| `MaintenanceModes.CheckRequired` | internal/controller/drplacementcontrol.go:916-934 | True exactly if every volume that stands for a required key finds its mode active |
| `MaintenanceModes.ModesOnMeans` | internal/controller/drplacementcontrol.go:790-835 | Every asking volume has a volume of its key whose backend is reported with a True condition in its first entry; all modes active is sufficient, and with unambiguous keys necessary |
| `MaintenanceModes.ListingExact` | internal/controller/drplacementcontrol_watcher.go:575-680 | The DRPCs listed are exactly those failing over under a regional policy that comes before the first metro policy |
| `MaintenanceModes.ListingEndsAt` | internal/controller/drplacementcontrol_watcher.go:575-632 | The first policy of the cluster that is not a regional one with two DRClusters decides: an unreadable one fails the listing, one with a missing DRCluster empties it whatever was found before |
| `MaintenanceModes.MissedExactly` | internal/controller/drplacementcontrol_watcher.go:575-632 | A failing-over DRPC of a regional policy is missed if and only if a metro policy of the cluster comes first |
| `MaintenanceModes.MetroFirstPrunesNeededMode` | internal/controller/drplacementcontrol_watcher.go:575-632 | A configuration in which a mode in use is pruned because of that order |
| `MaintenanceModes.DRPCsFailingOverToCluster` | internal/controller/drplacementcontrol_watcher.go:575-632 | The nested loops return that listing |
| `MaintenanceModes.DRClusterInstance.ActivationsRequired` | internal/controller/drcluster_mmode.go:52-110 | An entry for every key the listed DRPCs ask for, by their last primary or else by the object store, and no other; requeues exactly if the listing fails or a DRPC cannot be read |
| `MaintenanceModes.DRClusterInstance.HandleModes` | internal/controller/drcluster_mmode.go:23-48 | Every manifest whose key a listed DRPC asks for is kept; without a listing nothing is touched |
| `MaintenanceModes.CollectedModeIsKept` | internal/controller/drcluster_mmode.go:200-257 | A mode asked for by a listed DRPC is kept, also if only the object store mentions its volumes |
| `MaintenanceModes.ArchivedVolumesAreConsidered` | internal/controller/drplacementcontrol.go:806-815 | The volumes in the object store are the ones considered when no VRG in view is Primary on another cluster |
| `MaintenanceModes.PrimaryVolumesAreConsidered` | internal/controller/drplacementcontrol.go:806-815 | Otherwise those of the first VRG in view that is Primary on another cluster are |
| `MaintenanceModes.DRClusterInstance.PruneModes` | internal/controller/drcluster_mmode.go:200-257 | Exactly the manifests that are not needed and can be deleted are gone |
| `MaintenanceModes.DeletedOnlyIfUnneeded` | internal/controller/drcluster_mmode.go:200-257 | A deleted manifest is not required and no listed DRPC uses its backend |
| `MaintenanceModes.UnneededIsDeleted` | internal/controller/drcluster_mmode.go:200-257 | A readable manifest that is not required, and whose backend no volume of a listed DRPC is on, is deleted if the API accepts it |
| `MaintenanceModes.UnreadableKeepsEverything` | internal/controller/drcluster_mmode.go:431-502 | While a listed DRPC cannot be read no manifest is deleted |
| `MaintenanceModes.AskedModeIsKept` | internal/controller/drcluster_mmode.go:464-502 | A mode that a listed DRPC uses is kept |
| `HubRecovery.OrderIrrelevant` | internal/controller/drplacementcontrol_controller.go:2804-2837 | With both clusters answering and at most one primary, the decision does not depend on the order of the map |
| `HubRecovery.TwoPrimariesOrderMatters` | internal/controller/drplacementcontrol_controller.go:2804-2837 | With two primaries it does, exactly if one of them is what the spec intends |
| `HubRecovery.TwoSecondariesStop` | internal/controller/drplacementcontrol_controller.go:2819-2824 | From an empty phase with two secondaries no reconcile of any run processes an action, whatever the user edits |
| `HubRecovery.ActionNeedsIntentOrUser` | internal/controller/drplacementcontrol_controller.go:2558-2612 | From an empty phase with VRGs in view, an action is reached only if a VRG in view has it, or after the user was told that failover is allowed and asked for one |
| `HubRecovery.ContinueIsIntended` | internal/controller/drplacementcontrol_controller.go:2648-2843 | Continue means that action and destination are those of a VRG in view, and which VRG |
| `HubRecovery.NobodyReachedStops` | internal/controller/drplacementcontrol_controller.go:2688-2698 | With no cluster reached, or VRGs not adopted yet, the answer is Stop in every phase |
| `HubRecovery.EmptyViewContinuesExactly` | internal/controller/drplacementcontrol_controller.go:2700-2757 | With no VRG in view an empty phase continues if and only if both clusters answered, or one did that is not needed for the destination and the archived VRG, if any, has the action and destination of the spec |
| `HubRecovery.StopsExactly` | internal/controller/drplacementcontrol_controller.go:2648-2843 | With a cluster reached and no failover chosen, Stop in three cases only: nothing known and the destination silent, a Primary at the destination with another action on the only cluster that answered, or two secondaries |
| `HubRecovery.GoesOnExactly` | internal/controller/drplacementcontrol_controller.go:2764-2843 | With VRGs in view and at most one primary, Continue if and only if a VRG at the destination has the action, and is Primary unless it is the only VRG of two clusters that answered |
| `HubRecovery.AllowedFailoverGetsThrough` | internal/controller/drplacementcontrol_controller.go:2558-2612 | Over every run, after AllowFailover was remembered, a failover to a cluster that answers passes the gate |
| `HubRecovery.ChosenFailoverContinues` | internal/controller/drplacementcontrol_controller.go:2707-2713 | From WaitForUser a failover to a cluster that answers continues whatever the VRGs |
| `HubRecovery.DRPC.EnsureDRPCStatusConsistency` | internal/controller/drplacementcontrol_controller.go:2558-2612 | The action is processed exactly on Continue or a known phase; AllowFailover waits for the user with the peer ready, Stop keeps the phase |
| `GlobalConsensus.IsGlobalActionInConsensus` | internal/controller/drplacementcontrol_global.go:63-121 | True exactly if every other DRPC of the label agrees; names exactly the ones that do not |
| `GlobalConsensus.ConsensusIsUnanimity` | internal/controller/drplacementcontrol_global.go:63-121 | A DRPC passes if and only if every DRPC with its label has its action and target |
| `GlobalConsensus.ConsensusIsSymmetric` | internal/controller/drplacementcontrol_global.go:63-121 | Within one snapshot the members of a group pass or wait together |
| `ActionCounter.CountsAreSteps` | internal/controller/dr_telemetry_metrics.go:55-87 | Over every observed phase sequence the counters are the numbers of Initiating-to-FailingOver and Initiating-to-Relocating steps of the sequence without repeats, modulo the integer width |
| `ActionCounter.RepeatsDoNotCount` | internal/controller/dr_telemetry_metrics.go:55-87 | Sequences that differ in repeats only give the same counts |
| `ActionCounter.DRPC.SyncActionCount` | internal/controller/dr_telemetry_metrics.go:55-87 | The annotation becomes the counts after observing the current phase, and is rewritten exactly if they changed |

## Left out

- The VRG controller, the MW agent, ManagedClusterViews, the object store and the VolSync helpers are contracts or parameters; their code is not part of this model.
- Test failover (DryRun), initial deployment, deletion of VRGs, adoption of VRGs and hub recovery in the middle of a run: the runs here keep the action and the target fixed and start from a workload at rest. Changing preferredCluster while a view is stale is not covered.
- Two reads of the same view within one reconcile are one snapshot here; in the source `isValidFailoverTarget` and `ensureVRGIsSecondaryOnCluster` read again.
- The VRG spec is reduced to role, final-sync flags, action, presence of VolSync destinations, and one revision number for all fields that every write refreshes; replication sources, static-IP specs, recipes, namespaces and annotations are not modelled.
- Progressions of discovered applications, the Available condition, action times, events, logs and metrics.
- Orchestration.DRPCInstance.EnsurePlacement: the annotation update is a write that may fail; that it also replaces the in-memory status by the stored one is not modelled, because the next reconcile sets the same phase and progression again.
- Orchestration.DRPCInstance.ReadWork: any failing read and any failing write of a reconcile is one nondeterministic failure; error texts are not modelled.
- Executions.ReconcileIsExecution: a reconcile is a sequence of single writes; the wiring that calls RunFailover and RunRelocate (processing gates, requeue times) is not part of this model.
- PlacementDecisions.PlacementObject.CreateOrUpdate: one PlacementDecision object per Placement; a cluster whose name is the retained reason itself is not distinguished from an ordinary one.
- IPv6 addresses and IPv4 addresses written in IPv6 form are covered only through the abstract `parse` of `NetworkMapping.Lib`; YAML decoding, the schema version check, regular-expression matching and CIDR text parsing are parameters.
- Fencing.DRClusterInstance.CheckStatus: how NetworkFenceClasses are matched with storage classes and how the peer is found are parameters.
- MaintenanceModes.DRClusterInstance.PruneModes: view pruning and the rebuilding of the reported modes are left out.
- MaintenanceModes.DRClusterInstance.HandleModes: the creation of missing manifests is left out; it only adds to them.
- ActionCounter.CountsAreSteps: counts the phases the code observes; a status write lost after the annotation write is not part of the sequence.
- FailoverProgress.FailoverCompletes: starts with an MW on the target, because the source refuses a target that has no VRG; how such a VRG comes about on a new pair of clusters is initial deployment.
- DRClusterConfig discovery, CIDR validation of DRClusters, schedules, deployment of the operator, API registration, the e2e suite and the ramendev tools.
