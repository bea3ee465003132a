/** The failover and relocation protocol between the hub and the two clusters of a DRPolicy.

    The hub never talks to a cluster directly.  It edits one ManifestWork (MW) per cluster, an
    agent applies it to the VolumeReplicationGroup (VRG) of that cluster, the VRG controller
    reports status, and the hub reads VRGs back through views that lag behind.  This module
    gives the state of all four parties, what each of them may do, and, as two tables, what one
    reconcile of the hub is allowed to write during a relocation and during a failover.
 */
module Protocol {
  import opened Options
  import opened DRTypes
  import opened PlacementDecisions
  import MM = MaintenanceModes
  import GC = GlobalConsensus

  // ---------------------------------------------------------------------------
  // VRGs
  // ---------------------------------------------------------------------------

  /** The part of a VRG spec the protocol turns on.  `rdSpec`: it lists VolSync destinations;
      `optional`: a revision number for the fields that are refreshed on every write. */
  datatype VRGSpec = VRGSpec(role: Role, prepareForFinalSync: bool, runFinalSync: bool,
                             rdSpec: bool, action: Option<Action>, optional: nat)

  datatype Reported = Unknown | AsPrimary | AsSecondary

  /** A status condition and the generation it was computed for. */
  datatype Condition = Absent | Condition(holds: bool, observed: nat)

  datatype VRGStatus = VRGStatus(state: Reported, observed: nat,
                                 dataReady: Condition, clusterDataReady: Condition,
                                 clusterDataProtected: Condition, dataProtected: Condition,
                                 prepared: bool, finalSynced: bool,
                                 pvcs: seq<MM.StorageId>, volSync: bool)

  datatype VRG = VRG(spec: VRGSpec, generation: nat, status: VRGStatus)

  predicate Met(c: Condition, generation: nat) { c == Condition(true, generation) }

  /** The VRG reports Secondary for its current generation. */
  predicate SettledSecondary(v: VRG) {
    v.status.state == AsSecondary && v.status.observed == v.generation
  }

  predicate Ready(v: VRG) {
    && Met(v.status.dataReady, v.generation)
    && Met(v.status.clusterDataReady, v.generation)
    && v.status.state == AsPrimary
  }

  predicate DataSafe(v: VRG) {
    Met(v.status.dataReady, v.generation) && Met(v.status.clusterDataProtected, v.generation)
  }

  predicate DataProtected(v: VRG) { Met(v.status.dataProtected, v.generation) }

  type Views = map<Cluster, VRG>

  predicate SeenAs(m: Views, c: Cluster, r: Role) { c in m && m[c].spec.role == r }

  predicate WorkIs(mw: map<Cluster, VRGSpec>, c: Cluster, r: Role) { c in mw && mw[c].role == r }

  // ---------------------------------------------------------------------------
  // The DRPC
  // ---------------------------------------------------------------------------

  datatype DRPCSpec = DRPCSpec(action: Action, preferredCluster: Option<Cluster>, failoverCluster: Option<Cluster>)

  datatype Progression =
    | NoProgression
    | PreparingFinalSync | ClearingPlacement | RunningFinalSync | FinalSyncComplete
    | EnsuringVolumesAreSecondary
    | CheckingFailoverPrerequisites | WaitForFencing | WaitForStorageMaintenanceActivation
    | FailingOverToCluster | WaitOnGlobalAction
    | WaitingForResourceRestore | WaitForReadiness | UpdatedPlacement
    | CleaningUp | EnsuringSecondarySetup | SettingUpVolSyncDest
    | Completed

  /** The PeerReady condition; `current` is whether it carries the DRPC's generation. */
  datatype PeerReady = PeerReady(holds: bool, success: bool, current: bool)

  datatype Status = Status(phase: Phase, progression: Progression, peerReady: PeerReady, preferred: Option<Cluster>)

  /** Cleanup counts as done: PeerReady is True with reason Success at the current generation. */
  predicate Tallied(s: Status) { s.peerReady == PeerReady(true, true, true) }

  /** A relocation may go on: it is under way, or the cleanup of the action before it is done. */
  predicate MayProceed(s: Status) { s.phase == Relocating || s.peerReady.holds }

  /** A Placement keeps reasons in its decisions, the older PlacementRule does not. */
  datatype PlacementKind = ByPlacement | ByPlacementRule

  type Decisions = seq<Decision<Cluster>>

  /** The cluster the placement currently names. */
  function Home(kind: PlacementKind, l: Decisions): Option<Cluster> {
    match kind
    case ByPlacement => (match Current(l) case Some(d) => Some(d.cluster) case None => None)
    case ByPlacementRule => if l == [] then None else Some(l[0].cluster)
  }

  // ---------------------------------------------------------------------------
  // What one reconcile reads besides the MWs
  // ---------------------------------------------------------------------------

  /** A DRCluster: its Fenced condition and its reported maintenance modes. */
  datatype DRClusterView = DRClusterView(generation: nat, fenced: Condition, modes: seq<MM.ModeStatus>)

  datatype Group = NoGroup | Group(self: GC.Member<Option<Cluster>>, listed: Option<seq<GC.Member<Option<Cluster>>>>)

  /** `faulty`: API writes of this reconcile may fail.  `archived`: PVCs of the last primary
      found in the object store.  `volSyncReady`: the VolSync helpers finish without an error. */
  datatype Env = Env(faulty: bool, reachable: set<Cluster>, sync: bool,
                     drClusters: map<Cluster, DRClusterView>, archived: Option<seq<MM.StorageId>>,
                     group: Group, optional: nat, volSyncDisabled: bool, volSyncReady: bool)

  /** One reconcile: the spec it runs, the snapshot of views it works from, what else it reads, and the
      cluster a failover would fail away from as the placement stood at the start. */
  datatype Ctx = Ctx(spec: DRPCSpec, kind: PlacementKind, views: Views, env: Env, home: Option<Cluster>)

  /** The cluster to fail away from: the one the placement names, or the preferred one on record, or the
      peer of the failover cluster. */
  function CurrentHome(spec: DRPCSpec, kind: PlacementKind, env: Env, l: Decisions, preferred: Option<Cluster>): Option<Cluster> {
    var named := Home(kind, l);
    if named.Some? then named
    else if preferred.Some? then preferred
    else if spec.failoverCluster.Some? && Peer(spec.failoverCluster.value) in env.drClusters
    then Some(Peer(spec.failoverCluster.value))
    else None
  }

  /** Both clusters reached, an asynchronous policy, and nothing that asks for a maintenance mode. */
  function QuietEnv(): Env {
    Env(false, {DR1, DR2}, false, map[], None, NoGroup, 0, true, true)
  }

  predicate Fenced(e: Env, c: Cluster) {
    c in e.drClusters && Met(e.drClusters[c].fenced, e.drClusters[c].generation)
  }

  /** The PVCs whose backends decide about maintenance modes: those of the primary seen on the
      other cluster, or else those of the object store. */
  function LastPrimaryPVCs(x: Ctx, target: Cluster): Option<seq<MM.StorageId>> {
    if SeenAs(x.views, Peer(target), Primary) then Some(x.views[Peer(target)].status.pvcs) else x.env.archived
  }

  /** Every maintenance mode the failover needs is active on the failover cluster. */
  ghost predicate ModesActive(x: Ctx, target: Cluster) {
    target in x.env.drClusters && LastPrimaryPVCs(x, target).Some? ==>
      MM.ModesOn(x.env.drClusters[target].modes, LastPrimaryPVCs(x, target).value)
  }

  /** The failover prerequisites, with `from` as the cluster to fail away from. */
  ghost predicate Prerequisites(x: Ctx, target: Cluster, from: Cluster) {
    if x.env.sync then Fenced(x.env, from) else ModesActive(x, target)
  }

  ghost predicate Consensus(e: Env) {
    e.group.NoGroup? || (e.group.listed.Some? && GC.InConsensus(e.group.self, e.group.listed.value))
  }

  /** The failover cluster reports Secondary for the generation that was read. */
  predicate ValidTarget(x: Ctx, target: Cluster) {
    target in x.views && SettledSecondary(x.views[target])
  }

  // ---------------------------------------------------------------------------
  // What the hub writes
  // ---------------------------------------------------------------------------

  /** The writes of a reconcile: MW edits, placement edits, and changes to the in-memory status. */
  datatype Act =
    | Promote(cluster: Cluster)
    | Demote(cluster: Cluster)
    | PrepareSync(cluster: Cluster)
    | RunSync(cluster: Cluster)
    | RefreshWork(cluster: Cluster)
    | ClearRDSpec(cluster: Cluster)
    | SetupSecondary(cluster: Cluster, rdSpec: bool)
    | ClearPlacement
    | Place(cluster: Cluster, reason: Reason<Cluster>)
    | RetainPlacement(cluster: Cluster)
    | DropPlacement(cluster: Cluster)
    | SetStatus(status: Status)

  datatype Store = Store(mw: map<Cluster, VRGSpec>, decisions: Decisions, status: Status)

  /** Every MW write refreshes the optional fields. */
  function Refreshed(x: Ctx, v: VRGSpec): VRGSpec {
    v.(action := Some(x.spec.action), optional := x.env.optional)
  }

  function NewWork(x: Ctx, role: Role, rdSpec: bool): VRGSpec {
    Refreshed(x, VRGSpec(role, false, false, rdSpec, None, 0))
  }

  /** A promotion keeps the final-sync flags of a relocation and clears those of a failover. */
  function Promoted(x: Ctx, c: Cluster, v: VRGSpec): VRGSpec {
    var r := Refreshed(x, v.(role := Primary));
    if x.spec.action == Failover && x.spec.failoverCluster == Some(c)
    then r.(prepareForFinalSync := false, runFinalSync := false) else r
  }

  function Demoted(x: Ctx, v: VRGSpec): VRGSpec {
    Refreshed(x, v.(role := Secondary, prepareForFinalSync := false, runFinalSync := false))
  }

  function WriteWork(x: Ctx, mw: map<Cluster, VRGSpec>, a: Act): map<Cluster, VRGSpec> {
    match a
    case Promote(c) => mw[c := if c in mw then Promoted(x, c, mw[c]) else NewWork(x, Primary, false)]
    case SetupSecondary(c, rd) => mw[c := NewWork(x, Secondary, rd)]
    case Demote(c) => if c in mw then mw[c := Demoted(x, mw[c])] else mw
    case PrepareSync(c) =>
      if c in mw then mw[c := Refreshed(x, mw[c].(prepareForFinalSync := true, runFinalSync := false))] else mw
    case RunSync(c) =>
      if c in mw then mw[c := Refreshed(x, mw[c].(prepareForFinalSync := false, runFinalSync := true))] else mw
    case RefreshWork(c) => if c in mw then mw[c := Refreshed(x, mw[c])] else mw
    case ClearRDSpec(c) => if c in mw then mw[c := mw[c].(rdSpec := false)] else mw
    case _ => mw
  }

  function WritePlacement(kind: PlacementKind, l: Decisions, a: Act): Decisions {
    match kind
    case ByPlacement =>
      (match a
       case ClearPlacement => Step(l, Update(None))
       case Place(c, reason) => Step(l, Update(Some(Decision(c, reason))))
       case RetainPlacement(c) => Step(l, Retain(c))
       case DropPlacement(c) => Step(l, Drop(c))
       case _ => l)
    case ByPlacementRule =>
      (match a
       case ClearPlacement => []
       case Place(c, reason) => [Decision(c, reason)]
       case _ => l)
  }

  function Effect(x: Ctx, s: Store, a: Act): Store {
    match a
    case SetStatus(n) => s.(status := n)
    case _ => Store(WriteWork(x, s.mw, a), WritePlacement(x.kind, s.decisions, a), s.status)
  }

  // ---------------------------------------------------------------------------
  // The tables: what a reconcile may write
  // ---------------------------------------------------------------------------

  /** The snapshot shows the workload arrived: Primary and ready on the target. */
  predicate Arrived(x: Ctx, p: Cluster) { SeenAs(x.views, p, Primary) && Ready(x.views[p]) }

  /** The old home is still the only primary in the snapshot. */
  predicate Leaving(x: Ctx, p: Cluster) {
    SeenAs(x.views, Peer(p), Primary) && !SeenAs(x.views, p, Primary)
  }

  /** Both stages of the final sync were reported by the old home. */
  predicate Quiesced(x: Ctx, p: Cluster) {
    var q := Peer(p);
    q in x.views && x.views[q].status.prepared && x.views[q].status.finalSynced
  }

  /** The target of the relocation is not fenced. */
  predicate Switchable(x: Ctx, p: Cluster) {
    x.env.sync ==> p in x.env.drClusters && !Fenced(x.env, p)
  }

  /** The old home is safe to leave: the group agrees, the target is not fenced, and the data of the old
      home is ready and its cluster data protected. */
  ghost predicate SafeToLeave(x: Ctx, p: Cluster) {
    Consensus(x.env) && Switchable(x, p) && Peer(p) in x.views && DataSafe(x.views[Peer(p)])
  }

  /** What is allowed once the target is Primary, in either action: make the placement name the
      target, turn the other cluster into a replication destination, and drop its decision. */
  ghost predicate MayFinish(x: Ctx, p: Cluster, s: Store, a: Act) {
    var q := Peer(p);
    match a
    case RefreshWork(c) => c == p && SeenAs(x.views, p, Primary) && WorkIs(s.mw, p, Primary)
    case ClearRDSpec(c) => c == p && Arrived(x, p) && WorkIs(s.mw, p, Primary)
    case Place(c, reason) => c == p && !reason.Retained? && p in x.views && Ready(x.views[p]) && WorkIs(s.mw, p, Primary)
    case Demote(c) => c == q && Arrived(x, p) && WorkIs(s.mw, p, Primary) && WorkIs(s.mw, q, Primary)
    case SetupSecondary(c, _) => c == q && Arrived(x, p) && WorkIs(s.mw, p, Primary)
    case DropPlacement(c) =>
      && c == q && Arrived(x, p) && WorkIs(s.mw, q, Secondary)
      && SeenAs(x.views, q, Secondary) && x.views[q].status.observed == x.views[q].generation
    case _ => false
  }

  /** PeerReady turns True only after the peer was seen settled as Secondary. */
  predicate PeerReadyEarned(x: Ctx, p: Cluster, s: Store, n: Status) {
    n.peerReady.holds && !s.status.peerReady.holds ==>
      Arrived(x, p) && WorkIs(s.mw, Peer(p), Secondary) && Peer(p) in x.views && SettledSecondary(x.views[Peer(p)])
  }

  /** Completed is only announced after arrival, with cleanup tallied and the peer's MW Secondary. */
  predicate CompletionEarned(x: Ctx, p: Cluster, s: Store, n: Status) {
    n.progression == Completed && s.status.progression != Completed ==>
      Arrived(x, p) && Tallied(s.status) && WorkIs(s.mw, Peer(p), Secondary)
  }

  /** The preferred decision is recorded once, and then stays. */
  predicate PreferredKept(x: Ctx, s: Store, n: Status) {
    n.preferred == s.status.preferred || (s.status.preferred == None && n.preferred == x.spec.preferredCluster)
  }

  ghost predicate MayRelocate(x: Ctx, p: Cluster, s: Store, a: Act) {
    var q := Peer(p);
    || MayFinish(x, p, s, a)
    || match a
       case PrepareSync(c) =>
         && c == q && Leaving(x, p) && SafeToLeave(x, p) && !x.views[q].status.prepared
         && q in s.mw && !s.mw[q].prepareForFinalSync
       case ClearPlacement => Leaving(x, p) && SafeToLeave(x, p) && x.views[q].status.prepared
       case RunSync(c) =>
         && c == q && Leaving(x, p) && SafeToLeave(x, p)
         && x.views[q].status.prepared && !x.views[q].status.finalSynced
         && Home(x.kind, s.decisions) == None
         && q in s.mw && !s.mw[q].runFinalSync
       case Demote(c) =>
         // demote-everywhere: the old home has not settled as Secondary yet
         && s.status.phase == Relocating && Consensus(x.env)
         && WorkIs(s.mw, c, Primary) && !SeenAs(x.views, p, Primary)
         && q in x.views && !SettledSecondary(x.views[q])
         && (SeenAs(x.views, q, Primary) ==>
               SafeToLeave(x, p) && Quiesced(x, p) && Home(x.kind, s.decisions) == None)
       case Promote(c) =>
         && c == p && !WorkIs(s.mw, p, Primary) && !SeenAs(x.views, p, Primary)
         && s.status.phase == Relocating && !s.status.peerReady.holds && Consensus(x.env)
         && q in x.views && SettledSecondary(x.views[q]) && DataProtected(x.views[q])
       case SetStatus(n) =>
         && PeerReadyEarned(x, p, s, n) && CompletionEarned(x, p, s, n) && PreferredKept(x, s, n)
         && (n.phase == Relocating && s.status.phase != Relocating ==>
               SeenAs(x.views, p, Primary) || s.status.peerReady.holds)
         && (n.phase == Relocated && s.status.phase != Relocated ==> p in x.views && Ready(x.views[p]))
         && (s.status.phase == Relocating && n.phase != Relocating ==> n.phase == Relocated)
         && (s.status.peerReady.holds && !n.peerReady.holds ==> n.phase == Relocating && !SeenAs(x.views, p, Primary))
       case _ => false
  }

  ghost predicate MayFailover(x: Ctx, t: Cluster, s: Store, a: Act) {
    || MayFinish(x, t, s, a)
    || match a
       case RetainPlacement(c) =>
         && ValidTarget(x, t) && !SeenAs(x.views, t, Primary)
         && Consensus(x.env) && x.home == Some(c) && Prerequisites(x, t, c) && !s.status.peerReady.holds
         && (Home(x.kind, s.decisions) == None || Home(x.kind, s.decisions) == Some(c))
       case Promote(c) =>
         && c == t && !WorkIs(s.mw, t, Primary) && ValidTarget(x, t) && !SeenAs(x.views, t, Primary)
         && Consensus(x.env) && !s.status.peerReady.holds
         && x.home.Some? && Prerequisites(x, t, x.home.value)
         && (Home(x.kind, s.decisions) == None || (x.kind == ByPlacementRule && Home(x.kind, s.decisions) == x.home))
       case SetStatus(n) => PeerReadyEarned(x, t, s, n) && CompletionEarned(x, t, s, n) && PreferredKept(x, s, n)
       case _ => false
  }

  /** The action decides the table and the spec names the target; without a target nothing is
      written, and a relocation writes nothing unless both clusters were reached. */
  ghost predicate May(x: Ctx, s: Store, a: Act) {
    match x.spec.action
    case Relocate =>
      && x.spec.preferredCluster.Some? && {DR1, DR2} <= x.env.reachable
      && MayRelocate(x, x.spec.preferredCluster.value, s, a)
    case Failover => x.spec.failoverCluster.Some? && MayFailover(x, x.spec.failoverCluster.value, s, a)
  }

  // ---------------------------------------------------------------------------
  // The whole system
  // ---------------------------------------------------------------------------

  /** The hub between reconciles, or in the middle of one with its unsaved status. */
  datatype Hub = Idle | Busy(ctx: Ctx, work: Status)

  datatype State = State(mw: map<Cluster, VRGSpec>, decisions: Decisions, status: Status,
                         live: Views, view: Views, hub: Hub)

  /** What stays fixed during a run. */
  datatype Run = Run(spec: DRPCSpec, kind: PlacementKind)

  /** A step: the hub starts a reconcile, writes, or stops (keeping its status only if `saved`);
      an agent applies an MW; a VRG controller reports; a view catches up. */
  datatype Event =
    | Begin(env: Env)
    | Write(act: Act)
    | Stop(saved: bool)
    | Apply(cluster: Cluster)
    | Report(cluster: Cluster, status: VRGStatus)
    | Refresh(cluster: Cluster)

  function InMemory(s: State): Store
    requires s.hub.Busy?
  {
    Store(s.mw, s.decisions, s.hub.work)
  }

  function Snapshot(view: Views, reachable: set<Cluster>): Views {
    map c | c in view && c in reachable :: view[c]
  }

  /** What a reconcile that starts now works from. */
  function CtxOf(r: Run, s: State, env: Env): Ctx {
    Ctx(r.spec, r.kind, Snapshot(s.view, env.reachable), env,
        CurrentHome(r.spec, r.kind, env, s.decisions, s.status.preferred))
  }

  /** Applying an MW creates the VRG, or changes its spec and raises its generation. */
  function Applied(live: Views, c: Cluster, spec: VRGSpec): Views {
    if c !in live then live[c := VRG(spec, 1, NoStatus())]
    else if live[c].spec == spec then live
    else live[c := VRG(spec, live[c].generation + 1, live[c].status)]
  }

  function NoStatus(): VRGStatus {
    VRGStatus(Unknown, 0, Absent, Absent, Absent, Absent, false, false, [], false)
  }

  /** Condition generations never run ahead of the VRG. */
  predicate Bounded(v: VRG) {
    && v.status.observed <= v.generation
    && NotAhead(v.status.dataReady, v.generation) && NotAhead(v.status.clusterDataReady, v.generation)
    && NotAhead(v.status.clusterDataProtected, v.generation) && NotAhead(v.status.dataProtected, v.generation)
  }

  predicate NotAhead(c: Condition, generation: nat) { c.Condition? ==> c.observed <= generation }

  /** What is relied upon in a VRG: reports for the current generation agree with the spec. */
  predicate Honest(v: VRG) {
    && Bounded(v)
    && (SettledSecondary(v) ==> v.spec.role == Secondary)
    && (Ready(v) ==> v.spec.role == Primary)
  }

  /** The contract of the VRG controller: honest reports, and the two final-sync flags are only
      raised while the spec of a primary asks for that stage. */
  predicate ReportOk(v: VRG, status: VRGStatus) {
    var n := v.(status := status);
    && Honest(n)
    && (status.prepared && !v.status.prepared ==> n.spec.role == Primary && n.spec.prepareForFinalSync)
    && (status.finalSynced && !v.status.finalSynced ==> n.spec.role == Primary && n.spec.runFinalSync)
  }

  /** A report that takes nothing back: a primary keeps its final-sync flags, and a VRG settled as
      Secondary stays settled, as long as the spec does not change. */
  predicate Steady(v: VRG, status: VRGStatus) {
    && (v.spec.role == Primary && v.status.prepared ==> status.prepared)
    && (v.spec.role == Primary && v.status.finalSynced ==> status.finalSynced)
    && (SettledSecondary(v) ==> SettledSecondary(v.(status := status)))
  }

  ghost predicate Enabled(r: Run, s: State, e: Event) {
    match e
    case Begin(_) => s.hub.Idle?
    case Write(a) => s.hub.Busy? && May(s.hub.ctx, InMemory(s), a)
    case Stop(_) => s.hub.Busy?
    case Apply(c) => c in s.mw
    case Report(c, st) => c in s.live && ReportOk(s.live[c], st)
    case Refresh(c) => c in s.live
  }

  function Next(r: Run, s: State, e: Event): State {
    match e
    case Begin(env) => s.(hub := Busy(CtxOf(r, s, env), s.status))
    case Write(a) =>
      if s.hub.Busy? then
        var n := Effect(s.hub.ctx, InMemory(s), a);
        s.(mw := n.mw, decisions := n.decisions, hub := s.hub.(work := n.status))
      else s
    case Stop(saved) =>
      // a saved status carries the current generation in every condition
      if saved && s.hub.Busy?
      then s.(hub := Idle, status := s.hub.work.(peerReady := s.hub.work.peerReady.(current := true)))
      else s.(hub := Idle)
    case Apply(c) => if c in s.mw then s.(live := Applied(s.live, c, s.mw[c])) else s
    case Report(c, st) => if c in s.live then s.(live := s.live[c := s.live[c].(status := st)]) else s
    case Refresh(c) => if c in s.live then s.(view := s.view[c := s.live[c]]) else s
  }

  /** An execution: states and the events between them. */
  datatype Execution = Execution(states: seq<State>, events: seq<Event>)

  /** Step `i` was possible, and led to the next state. */
  ghost predicate StepOf(r: Run, x: Execution, i: nat)
    requires i < |x.events| && |x.states| == |x.events| + 1
  {
    Enabled(r, x.states[i], x.events[i]) && x.states[i + 1] == Next(r, x.states[i], x.events[i])
  }

  ghost predicate IsExecution(r: Run, x: Execution) {
    |x.states| == |x.events| + 1 && forall i: nat | i < |x.events| :: StepOf(r, x, i)
  }

  /** A workload at rest on `o`: one Primary MW there, the other cluster Secondary or unused,
      VRGs and views equal to the MWs, no final sync under way, the placement naming `o`, and the
      previous action finished. */
  ghost predicate Settled(r: Run, o: Cluster, s: State) {
    && s.hub.Idle?
    && WorkIs(s.mw, o, Primary) && (Peer(o) in s.mw ==> s.mw[Peer(o)].role == Secondary)
    && (forall c | c in s.mw :: !s.mw[c].prepareForFinalSync && !s.mw[c].runFinalSync)
    && s.live.Keys == s.mw.Keys && s.view == s.live
    && (forall c | c in s.live :: s.live[c].spec == s.mw[c] && Honest(s.live[c]))
    && !s.live[o].status.prepared && !s.live[o].status.finalSynced
    && |s.decisions| == 1 && s.decisions[0].cluster == o && IsActive(s.decisions[0])
    && s.status.phase in {Deployed, FailedOver, Relocated} && s.status.peerReady.holds
  }

  // ---------------------------------------------------------------------------
  // One reconcile as a trace of writes
  // ---------------------------------------------------------------------------

  ghost function Replay(x: Ctx, s: Store, trace: seq<Act>): Store {
    if trace == [] then s else Effect(x, Replay(x, s, trace[..|trace| - 1]), trace[|trace| - 1])
  }

  /** The write was allowed at the moment it was made. */
  ghost predicate LegalAt(x: Ctx, s: Store, trace: seq<Act>, i: nat)
    requires i < |trace|
  {
    May(x, Replay(x, s, trace[..i]), trace[i])
  }

  ghost predicate Legal(x: Ctx, s: Store, trace: seq<Act>) {
    forall i: nat | i < |trace| :: LegalAt(x, s, trace, i)
  }

  /** The writes lead from `s` to `n`, and each of them was allowed. */
  ghost predicate Reached(x: Ctx, s: Store, trace: seq<Act>, n: Store) {
    Legal(x, s, trace) && n == Replay(x, s, trace)
  }

  lemma Extend(x: Ctx, s: Store, trace: seq<Act>, n: Store, a: Act)
    requires Reached(x, s, trace, n) && May(x, n, a)
    ensures Reached(x, s, trace + [a], Effect(x, n, a))
  {
    var longer := trace + [a];
    assert longer[..|trace|] == trace;
    forall i: nat | i < |longer| ensures LegalAt(x, s, longer, i) {
      if i < |trace| {
        assert LegalAt(x, s, trace, i);
        assert longer[..i] == trace[..i];
      }
    }
  }

  lemma LegalFront(x: Ctx, s: Store, trace: seq<Act>)
    requires Legal(x, s, trace) && trace != []
    ensures Legal(x, s, trace[..|trace| - 1])
    ensures May(x, Replay(x, s, trace[..|trace| - 1]), trace[|trace| - 1])
  {
    var front := trace[..|trace| - 1];
    assert LegalAt(x, s, trace, |trace| - 1);
    forall i: nat | i < |front| ensures LegalAt(x, s, front, i) {
      assert LegalAt(x, s, trace, i);
      assert front[..i] == trace[..i];
    }
  }

  ghost function InHub(s: State, x: Ctx, n: Store): State {
    s.(mw := n.mw, decisions := n.decisions, hub := Busy(x, n.status))
  }
}
