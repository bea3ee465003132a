/** Names shared by the hub controllers: the two clusters of a DRPolicy, the user's actions and
    the phases a DRPlacementControl goes through. */
module DRTypes {
  /** A DRPolicy governs exactly two clusters. */
  datatype Cluster = DR1 | DR2

  function Peer(c: Cluster): Cluster {
    match c case DR1 => DR2 case DR2 => DR1
  }

  /** The replication state a VRG is asked to be in. */
  datatype Role = Primary | Secondary

  datatype Action = Failover | Relocate

  datatype Phase =
    | NoPhase
    | WaitForUser
    | Initiating
    | Deploying
    | Deployed
    | FailingOver
    | FailedOver
    | Relocating
    | Relocated
    | Deleting
}
