/** One reconcile of a DRPlacementControl, as the hub runs it.

    Every write goes through `Perform`, which admits only what the tables of `Protocol` allow, so
    the trace of a reconcile is legal whatever fails on the way; what the reconcile achieves when
    nothing fails is stated by the contracts of `RunRelocate` and `RunFailover`.
 */
module Orchestration {
  import opened Options
  import opened DRTypes
  import opened PlacementDecisions
  import opened Protocol
  import MM = MaintenanceModes
  import GC = GlobalConsensus
  import AC = ActionCounter
  import opened RelocateSafety
  import opened FailoverSafety

  /** The reconcile works towards `t` in its action. */
  predicate Toward(x: Ctx, t: Cluster) {
    match x.spec.action
    case Relocate => x.spec.preferredCluster == Some(t) && {DR1, DR2} <= x.env.reachable
    case Failover => x.spec.failoverCluster == Some(t)
  }

  /** The cluster was reached and reports Secondary for its generation, or holds no VRG. */
  predicate SecondaryOn(x: Ctx, c: Cluster) {
    c in x.env.reachable && (c in x.views ==> SettledSecondary(x.views[c]))
  }

  /** Every primary demoted. */
  function DemotedAll(x: Ctx, mw: map<Cluster, VRGSpec>): map<Cluster, VRGSpec> {
    map c | c in mw ::
      if mw[c].role == Primary
      then VRGSpec(Secondary, false, false, mw[c].rdSpec, Some(x.spec.action), x.env.optional) else mw[c]
  }

  function DemotedAt(x: Ctx, mw: map<Cluster, VRGSpec>, c: Cluster): map<Cluster, VRGSpec> {
    if WorkIs(mw, c, Primary) then mw[c := Demoted(x, mw[c])] else mw
  }

  function DemotedOn(x: Ctx, mw: map<Cluster, VRGSpec>, cs: seq<Cluster>): map<Cluster, VRGSpec> {
    if cs == [] then mw else DemotedAt(x, DemotedOn(x, mw, cs[..|cs| - 1]), cs[|cs| - 1])
  }

  /** One cluster after the other, in either order, demotes every primary. */
  lemma DemotedOnBoth(x: Ctx, mw: map<Cluster, VRGSpec>, cs: seq<Cluster>)
    requires cs == [DR1, DR2] || cs == [DR2, DR1]
    ensures DemotedOn(x, mw, cs) == DemotedAll(x, mw)
  {
    var one := cs[..1];
    assert one[..0] == [] && DemotedOn(x, mw, one) == DemotedAt(x, mw, cs[0]);
    var n := DemotedOn(x, mw, cs);
    assert n == DemotedAt(x, DemotedAt(x, mw, cs[0]), cs[1]);
    forall c | c in mw ensures c in n && n[c] == DemotedAll(x, mw)[c] {
      assert c == DR1 || c == DR2;
    }
    assert n.Keys == mw.Keys;
  }

  /** An action may start from these phases only. */
  predicate AtRest(phase: Phase) { phase in {NoPhase, WaitForUser, Deployed, FailedOver, Relocated} }

  function Initiated(s: Status): Status {
    if AtRest(s.phase)
    then s.(phase := Initiating, progression := NoProgression) else s
  }

  /** An asynchronous primary with VolSync volumes makes its peer list destinations for them. */
  function Destinations(x: Ctx, t: Cluster): bool
    requires t in x.views
  {
    !x.env.sync && x.views[t].status.volSync
  }

  /** The placement with its active decision taken out. */
  function Cleared(x: Ctx, l: Decisions): Decisions {
    if Home(x.kind, l) == None then l else WritePlacement(x.kind, l, ClearPlacement)
  }

  /** The placement list can be read. */
  predicate Readable(x: Ctx, l: Decisions) { x.kind == ByPlacement ==> AtMostOneActive(l) }

  /** What a fault-free reconcile of a relocation to `p` achieves, from `s` to `n`: two primaries in
      view are waited out; an old home that is safe to leave is prepared, synced with the placement
      cleared, and then demoted; once it settled with its data protected the target is promoted; and
      when the target is ready the placement names it, and the relocation completes. */
  ghost predicate Advances(x: Ctx, p: Cluster, s: Store, n: Store) {
    var q := Peer(p);
    && (SeenAs(x.views, p, Primary) && SeenAs(x.views, q, Primary) ==> n.mw == s.mw && n.decisions == s.decisions)
    && (CanLeave(x, p) && Consensus(x.env) && MayProceed(s.status) && q in s.mw && Readable(x, s.decisions) ==>
          Leaves(x, p, s, n))
    && (!SeenAs(x.views, p, Primary) && SeenAs(x.views, q, Secondary) && Consensus(x.env) && MayProceed(s.status) ==>
          Settles(x, p, s, n))
    && (Arrived(x, p) && !SeenAs(x.views, q, Primary) && WorkIs(s.mw, p, Primary) && Readable(x, s.decisions) ==>
          Arrives(x, p, s, n))
  }

  /** The old home is the only primary in view, and safe to leave. */
  predicate CanLeave(x: Ctx, p: Cluster) {
    Leaving(x, p) && Switchable(x, p) && DataSafe(x.views[Peer(p)])
  }

  ghost predicate Settles(x: Ctx, p: Cluster, s: Store, n: Store)
    requires Peer(p) in x.views
  {
    var q := Peer(p);
    && !n.status.peerReady.holds
    && (!SettledSecondary(x.views[q]) ==>
          && n.mw == DemotedAll(x, s.mw) && n.decisions == s.decisions
          && n.status.phase == Relocating && n.status.progression == EnsuringVolumesAreSecondary)
    && (SettledSecondary(x.views[q]) && !DataProtected(x.views[q]) ==>
          n.mw == s.mw && n.decisions == s.decisions && n.status.phase == Relocating)
    && (SettledSecondary(x.views[q]) && DataProtected(x.views[q]) && !WorkIs(s.mw, p, Primary) ==>
          && n.mw == s.mw[p := if p in s.mw then s.mw[p].(role := Primary, action := Some(Relocate), optional := x.env.optional)
                               else VRGSpec(Primary, false, false, false, Some(Relocate), x.env.optional)]
          && n.decisions == s.decisions
          && n.status.phase == Relocating && n.status.progression == WaitingForResourceRestore)
    && (SettledSecondary(x.views[q]) && WorkIs(s.mw, p, Primary) ==> n.mw == s.mw)
  }

  /** An MW that asks for one of the two stages of the final sync, and not for the other. */
  function Syncing(env: Env, v: VRGSpec, prepare: bool): VRGSpec {
    VRGSpec(v.role, prepare, !prepare, v.rdSpec, Some(Relocate), env.optional)
  }

  ghost predicate Leaves(x: Ctx, p: Cluster, s: Store, n: Store)
    requires Peer(p) in x.views && Peer(p) in s.mw
  {
    var q, seen := Peer(p), x.views[Peer(p)].status;
    if !seen.prepared then
      && n.decisions == s.decisions && n.status.progression == PreparingFinalSync
      && n.mw == if s.mw[q].prepareForFinalSync then s.mw else s.mw[q := Syncing(x.env, s.mw[q], true)]
    else if !seen.finalSynced then
      && n.decisions == Cleared(x, s.decisions) && n.status.progression == RunningFinalSync
      && n.mw == if s.mw[q].runFinalSync then s.mw else s.mw[q := Syncing(x.env, s.mw[q], false)]
    else
      !SettledSecondary(x.views[q]) ==>
        && n.decisions == Cleared(x, s.decisions) && n.mw == DemotedAll(x, s.mw)
        && n.status.phase == Relocating && n.status.progression == EnsuringVolumesAreSecondary
        && !n.status.peerReady.holds
  }

  /** Everything the cleanup of the old home waits for. */
  predicate CleanupDue(x: Ctx, p: Cluster, s: Store) {
    WorkIs(s.mw, Peer(p), Secondary) && SeenAs(x.views, Peer(p), Secondary) && SecondaryOn(x, Peer(p))
  }

  /** The MW of the target is a primary that carries the action and the optional fields of this reconcile. */
  predicate UpToDate(x: Ctx, t: Cluster, mw: map<Cluster, VRGSpec>) {
    WorkIs(mw, t, Primary) && mw[t].action == Some(x.spec.action) && mw[t].optional == x.env.optional
  }

  /** The MW of the peer is a plain Secondary for this action; it lists VolSync destinations exactly if the
      policy is asynchronous and the target has VolSync volumes. */
  predicate Destination(x: Ctx, t: Cluster, mw: map<Cluster, VRGSpec>)
    requires t in x.views
  {
    && Peer(t) in mw
    && mw[Peer(t)].role == Secondary && !mw[Peer(t)].prepareForFinalSync && !mw[Peer(t)].runFinalSync
    && mw[Peer(t)].rdSpec == (!x.env.sync && x.views[t].status.volSync)
    && mw[Peer(t)].action == Some(x.spec.action) && mw[Peer(t)].optional == x.env.optional
  }

  /** The peer was seen settled as Secondary. */
  predicate SawPeerSettled(x: Ctx, t: Cluster) {
    && Peer(t) in x.views && x.views[Peer(t)].spec.role == Secondary
    && x.views[Peer(t)].status.state == AsSecondary && x.views[Peer(t)].status.observed == x.views[Peer(t)].generation
  }

  ghost predicate Arrives(x: Ctx, p: Cluster, s: Store, n: Store)
    requires p in x.views && p in s.mw
  {
    && n.status.phase == Relocated && Home(x.kind, n.decisions) == Some(p)
    && WorkIs(n.mw, p, Primary) && n.mw[p].rdSpec == (s.mw[p].rdSpec && x.env.volSyncDisabled)
    && (CleanupDue(x, p, s) && x.env.volSyncReady && !x.views[p].spec.rdSpec ==>
          n.status.progression == Completed && Tallied(n.status))
    && (n.status.progression == Completed ==> UpToDate(x, p, n.mw) && Destination(x, p, n.mw))
  }

  /** The cluster to fail away from, as `s` stands. */
  function HomeAt(x: Ctx, s: Store): Option<Cluster> {
    CurrentHome(x.spec, x.kind, x.env, s.decisions, s.status.preferred)
  }

  /** What a failover checks before its prerequisites: a settled target the placement does not name
      already, a group that agrees, and a cluster to fail away from. */
  ghost predicate FailoverDue(x: Ctx, t: Cluster, s: Store) {
    && ValidTarget(x, t) && !SeenAs(x.views, t, Primary) && !(t in s.mw && Home(x.kind, s.decisions) == Some(t))
    && Consensus(x.env) && x.home.Some?
  }

  /** A fault-free failover that promotes its target. */
  ghost predicate FailsOver(x: Ctx, t: Cluster, s: Store, n: Store)
    requires x.home.Some?
  {
    && n.mw == s.mw[t := VRGSpec(Primary, false, false, t in s.mw && s.mw[t].rdSpec, Some(Failover), x.env.optional)]
    && n.decisions == WritePlacement(x.kind, s.decisions, RetainPlacement(x.home.value))
    && n.status.phase == FailingOver && n.status.progression == WaitingForResourceRestore
    && n.status.peerReady == PeerReady(false, false, true) && n.status.preferred == s.status.preferred
  }

  /** A failover whose prerequisites are not met: nothing is written, and the status says what is missing. */
  ghost predicate WaitsFor(x: Ctx, s: Store, n: Store) {
    && n.mw == s.mw && n.decisions == s.decisions
    && n.status == Status(FailingOver, if x.env.sync then WaitForFencing else WaitForStorageMaintenanceActivation,
                          PeerReady(false, false, true), s.status.preferred)
  }

  /** What a fault-free reconcile of a failover to `t` achieves, from `s` to `n`: a failover that is due
      promotes its target; a target that is ready gets the placement, loses its replication destinations
      and then has the old home demoted; and once that settled the failover completes. */
  ghost predicate FailoverAdvances(x: Ctx, t: Cluster, s: Store, n: Store) {
    && (FailoverDue(x, t, s) && !WorkIs(s.mw, t, Primary) ==>
          Prerequisites(x, t, x.home.value) ==> FailsOver(x, t, s, n))
    && (FailoverDue(x, t, s) && !Prerequisites(x, t, x.home.value) ==> WaitsFor(x, s, n))
    && (SeenAs(x.views, t, Primary) && !Ready(x.views[t]) ==> FailoverWaits(x, t, s, n))
    && (Arrived(x, t) && WorkIs(s.mw, t, Primary) ==> FailoverArrives(x, t, s, n))
  }

  /** A target that is not ready is waited for: roles, placement and PeerReady stay as they are. */
  ghost predicate FailoverWaits(x: Ctx, t: Cluster, s: Store, n: Store) {
    && n.status.phase == FailedOver && n.status.progression == WaitForReadiness
    && n.status.peerReady == s.status.peerReady && n.decisions == s.decisions
    && SameRoles(s.mw, n.mw) && (t in s.mw ==> t in n.mw && n.mw[t].rdSpec == s.mw[t].rdSpec)
  }

  ghost predicate SameRoles(before: map<Cluster, VRGSpec>, after: map<Cluster, VRGSpec>) {
    before.Keys == after.Keys && forall c | c in before :: after[c].role == before[c].role
  }

  /** The placement with `t` as its active decision. */
  function Placed(x: Ctx, t: Cluster, l: Decisions): Decisions {
    if Home(x.kind, l) == Some(t) then l else WritePlacement(x.kind, l, Place(t, Named(t)))
  }

  ghost predicate FailoverArrives(x: Ctx, t: Cluster, s: Store, n: Store)
    requires t in x.views && t in s.mw
  {
    && n.status.phase == FailedOver && Home(x.kind, n.decisions) == Some(t)
    && WorkIs(n.mw, t, Primary) && n.mw[t].rdSpec == (s.mw[t].rdSpec && x.env.volSyncDisabled)
    && (Peer(t) in s.mw && !x.views[t].spec.rdSpec ==> WorkIs(n.mw, Peer(t), Secondary))
    && (CleanupDue(x, t, s) && x.env.volSyncReady && !x.views[t].spec.rdSpec ==>
          n.status.progression == Completed && Tallied(n.status))
    && (n.status.progression == Completed ==> UpToDate(x, t, n.mw) && Destination(x, t, n.mw))
    && (Tallied(s.status) ==> Tallied(n.status) && n.decisions == Placed(x, t, s.decisions))
    && (Tallied(s.status) && Peer(t) in s.mw && x.env.volSyncReady && !x.views[t].spec.rdSpec ==>
          n.status.progression == Completed)
  }

  /** While the old home has not settled, any primary may be demoted. */
  lemma DemotionAllowed(x: Ctx, p: Cluster, s: Store, c: Cluster)
    requires x.spec.action == Relocate && Toward(x, p) && s.status.phase == Relocating && WorkIs(s.mw, c, Primary)
    requires !SeenAs(x.views, p, Primary) && Peer(p) in x.views && !SettledSecondary(x.views[Peer(p)])
    requires Consensus(x.env)
    requires SeenAs(x.views, Peer(p), Primary) ==>
               SafeToLeave(x, p) && Quiesced(x, p) && Home(x.kind, s.decisions) == None
    ensures May(x, s, Demote(c))
  {
  }

  /** The counters go from `c` to `d`: the action is counted once if it `begins`, and no other is. */
  predicate Counted(c: AC.Counts, d: AC.Counts, action: Action, begins: bool) {
    && d.failover == (if begins && action == Failover then (c.failover + 1) % AC.LIMIT else c.failover)
    && d.relocate == (if begins && action == Relocate then (c.relocate + 1) % AC.LIMIT else c.relocate)
  }

  /** Entering the phase `acting` begins an action if it is entered from rest, or from an Initiating phase
      that was accounted before; not while the action is under way. */
  predicate Begins(before: Phase, c: AC.Counts, acting: Phase) {
    before != acting && (before in {NoPhase, WaitForUser, Deployed, FailedOver, Relocated} || c.lastPhase == Initiating)
  }

  /** The preferred cluster is put on record once. */
  function Recorded(x: Ctx, s: Status): Option<Cluster> {
    if s.preferred == None then x.spec.preferredCluster else s.preferred
  }

  datatype Outcome = Fine | NotFound | Failed

  class DRPCInstance {
    const ctx: Ctx
    /** The clusters of the policy, in its order. */
    const clusters: seq<Cluster>
    var mw: map<Cluster, VRGSpec>
    var decisions: Decisions
    var status: Status
    /** The action counters of the DRPC, kept in an annotation. */
    var counts: AC.Counts
    ghost const start: Store
    ghost var trace: seq<Act>

    ghost function Now(): Store reads this { Store(mw, decisions, status) }

    ghost predicate Valid() reads this {
      && Reached(ctx, start, trace, Now())
      && ctx.home == HomeAt(ctx, start)
      && (clusters == [DR1, DR2] || clusters == [DR2, DR1])
    }

    constructor (ctx: Ctx, clusters: seq<Cluster>, s: Store, counts: AC.Counts)
      requires clusters == [DR1, DR2] || clusters == [DR2, DR1]
      requires ctx.home == HomeAt(ctx, s)
      ensures Valid() && this.ctx == ctx && Now() == s && start == s && this.counts == counts
    {
      this.ctx, this.clusters := ctx, clusters;
      mw, decisions, status := s.mw, s.decisions, s.status;
      this.counts := counts;
      start, trace := s, [];
    }

    // -------------------------------------------------------------------------
    // Reads and writes
    // -------------------------------------------------------------------------

    /** One write; it may fail if API calls can fail in this reconcile. */
    method Perform(a: Act) returns (ok: bool)
      requires Valid() && May(ctx, Now(), a)
      modifies this`mw, this`decisions, this`status, this`trace
      ensures Valid()
      ensures Now() == if ok then Effect(ctx, old(Now()), a) else old(Now())
      ensures !ctx.env.faulty || a.SetStatus? ==> ok
    {
      ok := true;
      if ctx.env.faulty && !a.SetStatus? { ok := *; }
      if ok {
        var n := Effect(ctx, Store(mw, decisions, status), a);
        Extend(ctx, start, trace, Now(), a);
        mw, decisions, status, trace := n.mw, n.decisions, n.status, trace + [a];
        assert Now() == n;
      }
    }

    /** The VRG in an MW. */
    method ReadWork(c: Cluster) returns (r: Outcome)
      ensures r == Fine ==> c in mw
      ensures r == NotFound ==> c !in mw
      ensures !ctx.env.faulty ==> r != Failed
    {
      var ok := true;
      if ctx.env.faulty { ok := *; }
      r := if !ok then Failed else if c in mw then Fine else NotFound;
    }

    method SetStatus(n: Status)
      requires Valid() && May(ctx, Now(), Act.SetStatus(n))
      modifies this`mw, this`decisions, this`status, this`trace
      ensures Valid() && status == n && mw == old(mw) && decisions == old(decisions)
    {
      var _ := Perform(Act.SetStatus(n));
    }

    method SetProgression(next: Progression, ghost t: Cluster)
      requires Valid() && Toward(ctx, t) && next != Completed
      modifies this`mw, this`decisions, this`status, this`trace
      ensures Valid() && mw == old(mw) && decisions == old(decisions)
      ensures status == old(status).(progression := next)
    {
      SetStatus(status.(progression := next));
    }

    method SetDRState(next: Phase, ghost t: Cluster)
      requires Valid() && Toward(ctx, t)
      requires ctx.spec.action == Relocate && next == Relocated ==> t in ctx.views && Ready(ctx.views[t])
      requires ctx.spec.action == Relocate && status.phase == Relocating ==> next in {Relocating, Relocated}
      requires ctx.spec.action == Relocate && next == Relocating ==> SeenAs(ctx.views, t, Primary) || MayProceed(status)
      modifies this
      ensures Valid() && mw == old(mw) && decisions == old(decisions)
      ensures status == old(status).(phase := next)
      ensures counts == if old(status).phase == next then old(counts) else AC.Observe(old(counts), next)
    {
      if status.phase != next {
        SetStatus(status.(phase := next));
        counts := AC.Observe(counts, next);
      }
    }

    method SetStatusInitiating(ghost t: Cluster)
      requires Valid() && Toward(ctx, t)
      modifies this
      ensures Valid() && mw == old(mw) && decisions == old(decisions)
      ensures status == Initiated(old(status))
      ensures counts == if AtRest(old(status).phase) then AC.Observe(old(counts), Initiating) else old(counts)
    {
      if !(status.phase == NoPhase || status.phase == WaitForUser || status.phase == Deployed ||
           status.phase == FailedOver || status.phase == Relocated) {
        return;
      }
      SetDRState(Initiating, t);
      SetProgression(NoProgression, t);
    }

    /** PeerReady is withdrawn before the roles of an action change. */
    method WithdrawPeerReady(ghost t: Cluster)
      requires Valid() && Toward(ctx, t) && !SeenAs(ctx.views, t, Primary)
      requires ctx.spec.action == Relocate ==> status.phase == Relocating
      modifies this`mw, this`decisions, this`status, this`trace
      ensures Valid() && mw == old(mw) && decisions == old(decisions)
      ensures status == old(status).(peerReady := PeerReady(false, false, true))
    {
      SetStatus(status.(peerReady := PeerReady(false, false, true)));
    }

    /** The roles are about to change: the phase of the action is entered, and PeerReady withdrawn. */
    method EnterPhase(next: Phase, ghost t: Cluster)
      requires Valid() && Toward(ctx, t) && !SeenAs(ctx.views, t, Primary)
      requires ctx.spec.action == Relocate ==> next == Relocating && MayProceed(status)
      modifies this
      ensures Valid() && mw == old(mw) && decisions == old(decisions)
      ensures status == old(status).(phase := next, peerReady := PeerReady(false, false, true))
      ensures counts == if old(status).phase == next then old(counts) else AC.Observe(old(counts), next)
    {
      SetDRState(next, t);
      WithdrawPeerReady(t);
    }

    method UpdatePreferredDecision(ghost t: Cluster)
      requires Valid() && Toward(ctx, t)
      modifies this`mw, this`decisions, this`status, this`trace
      ensures Valid() && mw == old(mw) && decisions == old(decisions)
      ensures status == old(status).(preferred := Recorded(ctx, old(status)))
    {
      if ctx.spec.preferredCluster.Some? && status.preferred == None {
        SetStatus(status.(preferred := ctx.spec.preferredCluster));
      }
    }

    /** A placement write; a list that cannot be read is not written. */
    method EditPlacement(a: Act) returns (ok: bool)
      requires Valid() && May(ctx, Now(), a)
      requires a.ClearPlacement? || a.Place? || a.RetainPlacement? || a.DropPlacement?
      modifies this`mw, this`decisions, this`status, this`trace
      ensures Valid() && mw == old(mw) && status == old(status)
      ensures decisions == if ok then WritePlacement(ctx.kind, old(decisions), a) else old(decisions)
      ensures ok ==> Readable(ctx, old(decisions))
      ensures !ctx.env.faulty && Readable(ctx, old(decisions)) ==> ok
    {
      if ctx.kind == ByPlacement && !AtMostOneActive(decisions) { return false; }
      ok := Perform(a);
    }

    // -------------------------------------------------------------------------
    // VRG roles
    // -------------------------------------------------------------------------

    method UpdateVRGState(c: Cluster, role: Role) returns (updated: bool, r: Outcome)
      requires Valid()
      requires c in mw && mw[c].role != role ==> May(ctx, Now(), if role == Primary then Promote(c) else Demote(c))
      modifies this`mw, this`decisions, this`status, this`trace
      ensures Valid() && decisions == old(decisions) && status == old(status)
      ensures updated ==> r == Fine && c in old(mw) && old(mw)[c].role != role
      ensures mw == if updated then WriteWork(ctx, old(mw), if role == Primary then Promote(c) else Demote(c)) else old(mw)
      ensures r == Fine ==> WorkIs(mw, c, role)
      ensures r == NotFound ==> c !in mw
      ensures !ctx.env.faulty ==> r == if c in old(mw) then Fine else NotFound
    {
      r := ReadWork(c);
      if r != Fine { return false, r; }
      if mw[c].role == role { return false, Fine; }
      updated := Perform(if role == Primary then Promote(c) else Demote(c));
      r := if updated then Fine else Failed;
    }

    /** Demotes the MW of one cluster, if it has one that is Primary. */
    method DemoteOn(c: Cluster, ghost p: Cluster) returns (ok: bool)
      requires Valid() && ctx.spec.action == Relocate && Toward(ctx, p) && status.phase == Relocating
      requires !SeenAs(ctx.views, p, Primary) && Peer(p) in ctx.views && !SettledSecondary(ctx.views[Peer(p)])
      requires Consensus(ctx.env)
      requires SeenAs(ctx.views, Peer(p), Primary) ==>
                 SafeToLeave(ctx, p) && Quiesced(ctx, p) && Home(ctx.kind, decisions) == None
      modifies this`mw, this`decisions, this`status, this`trace
      ensures Valid() && decisions == old(decisions) && status == old(status) && mw.Keys == old(mw).Keys
      ensures ok ==> mw == DemotedAt(ctx, old(mw), c)
      ensures !ctx.env.faulty ==> ok
    {
      if WorkIs(mw, c, Primary) { DemotionAllowed(ctx, p, Now(), c); }
      var _, r := UpdateVRGState(c, Secondary);
      ok := r != Failed;
    }

    /** Demotes every primary; goes on after a failure. */
    method MoveVRGToSecondaryEverywhere(ghost p: Cluster) returns (moved: bool)
      requires Valid() && ctx.spec.action == Relocate && Toward(ctx, p)
      requires status.phase == Relocating
      requires !SeenAs(ctx.views, p, Primary) && Peer(p) in ctx.views && !SettledSecondary(ctx.views[Peer(p)])
      requires Consensus(ctx.env)
      requires SeenAs(ctx.views, Peer(p), Primary) ==>
                 SafeToLeave(ctx, p) && Quiesced(ctx, p) && Home(ctx.kind, decisions) == None
      modifies this`mw, this`decisions, this`status, this`trace
      ensures Valid() && decisions == old(decisions) && status == old(status)
      ensures moved ==> mw == DemotedAll(ctx, old(mw))
      ensures !ctx.env.faulty ==> moved
      ensures mw.Keys == old(mw).Keys
    {
      var failedCount, i := 0, 0;
      while i < |clusters|
        invariant i <= |clusters| && Valid() && decisions == old(decisions) && status == old(status)
        invariant mw.Keys == old(mw).Keys && failedCount >= 0 && (!ctx.env.faulty ==> failedCount == 0)
        invariant failedCount == 0 ==> mw == DemotedOn(ctx, old(mw), clusters[..i])
      {
        var ok := DemoteOn(clusters[i], p);
        if !ok { failedCount := failedCount + 1; }
        assert clusters[..i + 1][..i] == clusters[..i];
        i := i + 1;
      }
      moved := failedCount == 0;
      assert clusters[..2] == clusters;
      DemotedOnBoth(ctx, old(mw), clusters);
    }

    method EnsureVRGIsSecondaryOnCluster(c: Cluster) returns (b: bool)
      ensures b == SecondaryOn(ctx, c)
    {
      if c !in ctx.env.reachable { return false; }
      if c !in ctx.views { return true; }
      b := ctx.views[c].status.state == AsSecondary && ctx.views[c].status.observed == ctx.views[c].generation;
    }

    method EnsureVRGIsSecondaryEverywhere(skip: Option<Cluster>) returns (b: bool)
      requires Valid()
      ensures b <==> (skip == Some(DR1) || SecondaryOn(ctx, DR1)) && (skip == Some(DR2) || SecondaryOn(ctx, DR2))
    {
      var i := 0;
      while i < |clusters|
        invariant i <= |clusters|
        invariant forall j | 0 <= j < i :: skip == Some(clusters[j]) || SecondaryOn(ctx, clusters[j])
      {
        if skip != Some(clusters[i]) {
          var secondary := EnsureVRGIsSecondaryOnCluster(clusters[i]);
          if !secondary { return false; }
        }
        i := i + 1;
      }
      b := true;
      assert clusters[0] == DR1 || clusters[1] == DR1;
      assert clusters[0] == DR2 || clusters[1] == DR2;
    }

    /** Every cluster but the target holds a VRG whose data is protected. */
    method EnsureDataProtected(target: Cluster) returns (b: bool)
      requires Valid()
      ensures var q := Peer(target); b <==> q in ctx.env.reachable && q in ctx.views && DataProtected(ctx.views[q])
    {
      var i := 0;
      while i < |clusters|
        invariant i <= |clusters|
        invariant forall j | 0 <= j < i && clusters[j] != target ::
                    clusters[j] in ctx.env.reachable && clusters[j] in ctx.views && DataProtected(ctx.views[clusters[j]])
      {
        var c := clusters[i];
        if c != target {
          if c !in ctx.env.reachable || c !in ctx.views { return false; }
          var condition := ctx.views[c].status.dataProtected;
          if condition == Absent { return false; }
          if !condition.holds || condition.observed != ctx.views[c].generation { return false; }
        }
        i := i + 1;
      }
      b := true;
      assert clusters[0] == Peer(target) || clusters[1] == Peer(target);
    }

    // -------------------------------------------------------------------------
    // Relocation
    // -------------------------------------------------------------------------

    method UpdateVRGToPrepareForFinalSync(home: Cluster) returns (ok: bool)
      requires Valid()
      requires home in mw && !mw[home].prepareForFinalSync ==> May(ctx, Now(), PrepareSync(home))
      modifies this`mw, this`decisions, this`status, this`trace
      ensures Valid() && decisions == old(decisions) && status == old(status)
      ensures ok ==> home in mw && mw[home].prepareForFinalSync
      ensures mw == old(mw) || mw == WriteWork(ctx, old(mw), PrepareSync(home))
      ensures !ctx.env.faulty ==> ok == (home in mw)
      ensures home in old(mw) && old(mw)[home].prepareForFinalSync ==> mw == old(mw)
    {
      var r := ReadWork(home);
      if r != Fine { return false; }
      if mw[home].prepareForFinalSync { return true; }
      ok := Perform(PrepareSync(home));
    }

    method UpdateVRGToRunFinalSync(home: Cluster) returns (ok: bool)
      requires Valid()
      requires home in mw && !mw[home].runFinalSync ==> May(ctx, Now(), RunSync(home))
      modifies this`mw, this`decisions, this`status, this`trace
      ensures Valid() && decisions == old(decisions) && status == old(status)
      ensures ok ==> home in mw && mw[home].runFinalSync
      ensures mw == old(mw) || mw == WriteWork(ctx, old(mw), RunSync(home))
      ensures !ctx.env.faulty ==> ok == (home in mw)
      ensures home in old(mw) && old(mw)[home].runFinalSync ==> mw == old(mw)
    {
      var r := ReadWork(home);
      if r != Fine { return false; }
      if mw[home].runFinalSync { return true; }
      ok := Perform(RunSync(home));
    }

    method PrepareForFinalSync(p: Cluster, home: Cluster) returns (done: bool, ok: bool)
      requires Valid() && ctx.spec.action == Relocate && Toward(ctx, p) && home == Peer(p) && Leaving(ctx, p)
      requires SafeToLeave(ctx, p)
      modifies this`mw, this`decisions, this`status, this`trace
      ensures Valid() && decisions == old(decisions) && status == old(status)
      ensures done == ctx.views[home].status.prepared
      ensures done ==> ok && mw == old(mw)
      ensures mw == old(mw) || mw == WriteWork(ctx, old(mw), PrepareSync(home))
      ensures !done && ok ==> home in mw && mw[home].prepareForFinalSync
      ensures home in old(mw) && old(mw)[home].prepareForFinalSync ==> mw == old(mw)
      ensures !ctx.env.faulty && !done ==> ok == (home in mw)
    {
      if !ctx.views[home].status.prepared {
        ok := UpdateVRGToPrepareForFinalSync(home);
        return false, ok;
      }
      return true, true;
    }

    method RunFinalSync(p: Cluster, home: Cluster) returns (done: bool, ok: bool)
      requires Valid() && ctx.spec.action == Relocate && Toward(ctx, p) && home == Peer(p) && Leaving(ctx, p)
      requires SafeToLeave(ctx, p)
      requires ctx.views[home].status.prepared && Home(ctx.kind, decisions) == None
      modifies this`mw, this`decisions, this`status, this`trace
      ensures Valid() && decisions == old(decisions) && status == old(status)
      ensures done == ctx.views[home].status.finalSynced
      ensures done ==> ok && mw == old(mw)
      ensures mw == old(mw) || mw == WriteWork(ctx, old(mw), RunSync(home))
      ensures !done && ok ==> home in mw && mw[home].runFinalSync
      ensures home in old(mw) && old(mw)[home].runFinalSync ==> mw == old(mw)
      ensures !ctx.env.faulty && !done ==> ok == (home in mw)
    {
      if !ctx.views[home].status.finalSynced {
        ok := UpdateVRGToRunFinalSync(home);
        return false, ok;
      }
      return true, true;
    }

    /** Takes the active decision out of the placement, if it has one. */
    method ClearBeforeFinalSync(p: Cluster) returns (ok: bool)
      requires Valid() && ctx.spec.action == Relocate && Toward(ctx, p) && Leaving(ctx, p) && MayProceed(status)
      requires SafeToLeave(ctx, p) && ctx.views[Peer(p)].status.prepared
      modifies this
      ensures Valid() && mw == old(mw) && status.peerReady == old(status).peerReady
      ensures status.phase in {old(status).phase, Relocating}
      ensures counts == if status.phase == old(status).phase then old(counts) else AC.Observe(old(counts), Relocating)
      ensures ok ==> Home(ctx.kind, decisions) == None && decisions == Cleared(ctx, old(decisions))
      ensures !ctx.env.faulty && Readable(ctx, old(decisions)) ==> ok
    {
      if Home(ctx.kind, decisions) == None { return true; }
      SetDRState(Relocating, p);
      SetProgression(ClearingPlacement, p);
      ghost var before := decisions;
      ok := EditPlacement(ClearPlacement);
      if ok { UpdateSetsHome(ctx.kind, before, ClearPlacement); }
    }

    /** Quiesce: prepare, clear the placement, run the final sync.  `done` once both are reported. */
    method QuiesceAndRunFinalSync(p: Cluster) returns (done: bool)
      requires Valid() && ctx.spec.action == Relocate && Toward(ctx, p) && Leaving(ctx, p) && MayProceed(status)
      requires SafeToLeave(ctx, p)
      modifies this
      ensures Valid()
      ensures done ==> Quiesced(ctx, p) && Home(ctx.kind, decisions) == None
      ensures done ==> mw == old(mw)
      ensures status.peerReady == old(status).peerReady
      ensures status.phase in {old(status).phase, Relocating}
      ensures counts == if status.phase == old(status).phase then old(counts) else AC.Observe(old(counts), Relocating)
      ensures
        var q, seen := Peer(p), ctx.views[Peer(p)].status;
        !ctx.env.faulty && q in old(mw) && Readable(ctx, old(decisions)) ==>
          if !seen.prepared then
            && decisions == old(decisions) && status.progression == PreparingFinalSync
            && mw == if old(mw)[q].prepareForFinalSync then old(mw) else WriteWork(ctx, old(mw), PrepareSync(q))
          else
            && decisions == Cleared(ctx, old(decisions)) && done == seen.finalSynced
            && (!done ==> status.progression == RunningFinalSync)
            && (!done ==> mw == if old(mw)[q].runFinalSync then old(mw) else WriteWork(ctx, old(mw), RunSync(q)))
    {
      var home := Peer(p);
      var prepared, ok := PrepareForFinalSync(p, home);
      if !ok { return false; }
      if !prepared {
        SetProgression(PreparingFinalSync, p);
        return false;
      }
      ok := ClearBeforeFinalSync(p);
      if !ok { return false; }
      var synced;
      synced, ok := RunFinalSync(p, home);
      if !ok { return false; }
      if !synced {
        SetProgression(RunningFinalSync, p);
        return false;
      }
      SetProgression(FinalSyncComplete, p);
      return true;
    }

    /** Waits until the old home settled as Secondary with its data protected, demoting every
        primary while it has not. */
    method SetupRelocation(p: Cluster) returns (ok: bool)
      requires status.phase == Relocating
      requires Valid() && ctx.spec.action == Relocate && Toward(ctx, p) && !SeenAs(ctx.views, p, Primary)
      requires Consensus(ctx.env)
      requires SeenAs(ctx.views, Peer(p), Primary) ==>
                 SafeToLeave(ctx, p) && Quiesced(ctx, p) && Home(ctx.kind, decisions) == None
      modifies this`mw, this`decisions, this`status, this`trace
      ensures Valid() && decisions == old(decisions) && status == old(status).(progression := status.progression)
      ensures status.progression == if SecondaryOn(ctx, Peer(p)) then old(status).progression else EnsuringVolumesAreSecondary
      ensures ok <==> Peer(p) in ctx.views && SettledSecondary(ctx.views[Peer(p)]) && DataProtected(ctx.views[Peer(p)])
      ensures SecondaryOn(ctx, Peer(p)) ==> mw == old(mw)
      ensures !ctx.env.faulty && !SecondaryOn(ctx, Peer(p)) ==> mw == DemotedAll(ctx, old(mw))
    {
      var settled := EnsureVRGIsSecondaryEverywhere(Some(p));
      if !settled {
        SetProgression(EnsuringVolumesAreSecondary, p);
        var moved := MoveVRGToSecondaryEverywhere(p);
        if !moved { return false; }
        settled := EnsureVRGIsSecondaryEverywhere(None);
        if !settled { return false; }
      }
      ok := EnsureDataProtected(p);
    }

    method CreateVRGManifestWorkAsPrimary(t: Cluster) returns (changed: bool, ok: bool)
      requires Valid()
      requires !WorkIs(mw, t, Primary) ==> May(ctx, Now(), Promote(t))
      modifies this`mw, this`decisions, this`status, this`trace
      ensures Valid() && decisions == old(decisions) && status == old(status)
      ensures changed ==> ok
      ensures mw == if changed then WriteWork(ctx, old(mw), Promote(t)) else old(mw)
      ensures ok ==> WorkIs(mw, t, Primary) && changed == !WorkIs(old(mw), t, Primary)
      ensures !ctx.env.faulty ==> ok
    {
      var r := ReadWork(t);
      if r == Failed { return false, false; }
      if r == Fine {
        if mw[t].role == Primary { return false, true; }
        var updated, u := UpdateVRGState(t, Primary);
        return updated, u == Fine;
      }
      ok := Perform(Promote(t));
      changed := ok;
    }

    /** Promotes the target, then waits for it, then places the workload there. */
    method SwitchToCluster(t: Cluster, reason: Reason<Cluster>) returns (ok: bool)
      requires Valid() && Toward(ctx, t) && !reason.Retained?
      requires !WorkIs(mw, t, Primary) ==> May(ctx, Now(), Promote(t))
      modifies this`mw, this`decisions, this`status, this`trace
      ensures Valid() && status == old(status).(progression := status.progression)
      ensures status.progression in {old(status).progression, WaitingForResourceRestore, UpdatedPlacement}
      ensures ok ==> t in ctx.views && Ready(ctx.views[t]) && WorkIs(mw, t, Primary)
      ensures mw == old(mw) || (mw == WriteWork(ctx, old(mw), Promote(t)) && !WorkIs(old(mw), t, Primary))
      ensures decisions == if ok then WritePlacement(ctx.kind, old(decisions), Place(t, reason)) else old(decisions)
      ensures !ctx.env.faulty && !WorkIs(old(mw), t, Primary) ==>
                !ok && mw == WriteWork(ctx, old(mw), Promote(t)) && status.progression == WaitingForResourceRestore
      ensures !ctx.env.faulty && WorkIs(old(mw), t, Primary) && Readable(ctx, old(decisions)) ==>
                ok == (t in ctx.views && Ready(ctx.views[t]))
    {
      var changed;
      changed, ok := CreateVRGManifestWorkAsPrimary(t);
      if !ok { return; }
      if changed {
        SetProgression(WaitingForResourceRestore, t);
        return false;
      }
      if t !in ctx.views || !Ready(ctx.views[t]) {
        SetProgression(WaitingForResourceRestore, t);
        return false;
      }
      ok := EditPlacement(Place(t, reason));
      if ok { SetProgression(UpdatedPlacement, t); }
    }

    /** Sets the relocation up, and then switches to the target. */
    method SetUpAndSwitch(p: Cluster) returns (ok: bool)
      requires status.phase == Relocating && !status.peerReady.holds
      requires Valid() && ctx.spec.action == Relocate && Toward(ctx, p) && !SeenAs(ctx.views, p, Primary)
      requires Consensus(ctx.env)
      requires SeenAs(ctx.views, Peer(p), Primary) ==>
                 SafeToLeave(ctx, p) && Quiesced(ctx, p) && Home(ctx.kind, decisions) == None
      modifies this`mw, this`decisions, this`status, this`trace
      ensures Valid() && status == old(status).(progression := status.progression)
      ensures ok ==> SecondaryOn(ctx, Peer(p)) && p in ctx.views && Ready(ctx.views[p])
      ensures ok ==> Peer(p) in ctx.views && DataProtected(ctx.views[Peer(p)])
      ensures !SecondaryOn(ctx, Peer(p)) ==>
                status.progression == EnsuringVolumesAreSecondary && decisions == old(decisions)
      ensures !ctx.env.faulty && !SecondaryOn(ctx, Peer(p)) ==> mw == DemotedAll(ctx, old(mw))
      ensures !(Peer(p) in ctx.views && DataProtected(ctx.views[Peer(p)])) && SecondaryOn(ctx, Peer(p)) ==>
                mw == old(mw) && decisions == old(decisions)
      ensures SecondaryOn(ctx, Peer(p)) && WorkIs(old(mw), p, Primary) ==> mw == old(mw)
      ensures
        var q := Peer(p);
        !ctx.env.faulty && q in ctx.views && SettledSecondary(ctx.views[q]) && DataProtected(ctx.views[q])
          && !WorkIs(old(mw), p, Primary) ==>
          && !ok && mw == WriteWork(ctx, old(mw), Promote(p)) && decisions == old(decisions)
          && status.progression == WaitingForResourceRestore
    {
      ok := SetupRelocation(p);
      if !ok { return; }
      ok := SwitchToCluster(p, Named(p));
    }

    method RelocateTo(p: Cluster) returns (ok: bool)
      requires MayProceed(status)
      requires Valid() && ctx.spec.action == Relocate && Toward(ctx, p) && !SeenAs(ctx.views, p, Primary)
      requires Consensus(ctx.env)
      requires SeenAs(ctx.views, Peer(p), Primary) ==>
                 SafeToLeave(ctx, p) && Quiesced(ctx, p) && Home(ctx.kind, decisions) == None
      modifies this
      ensures Valid()
      ensures !status.peerReady.holds && status.phase in {Relocating, Relocated}
      ensures Counted(old(counts), counts, Relocate, old(status).phase != Relocating && old(counts).lastPhase == Initiating)
      ensures !SecondaryOn(ctx, Peer(p)) ==>
                && status.phase == Relocating && status.progression == EnsuringVolumesAreSecondary
                && decisions == old(decisions)
      ensures !(Peer(p) in ctx.views && DataProtected(ctx.views[Peer(p)])) && SecondaryOn(ctx, Peer(p)) ==>
                mw == old(mw) && decisions == old(decisions) && status.phase == Relocating
      ensures !ctx.env.faulty && !SecondaryOn(ctx, Peer(p)) ==> mw == DemotedAll(ctx, old(mw))
      ensures SecondaryOn(ctx, Peer(p)) && WorkIs(old(mw), p, Primary) ==> mw == old(mw)
      ensures
        var q := Peer(p);
        !ctx.env.faulty && q in ctx.views && SettledSecondary(ctx.views[q]) && DataProtected(ctx.views[q])
          && !WorkIs(old(mw), p, Primary) ==>
          && mw == WriteWork(ctx, old(mw), Promote(p)) && decisions == old(decisions)
          && status.phase == Relocating && status.progression == WaitingForResourceRestore
    {
      EnterPhase(Relocating, p);
      ok := SetUpAndSwitch(p);
      if !ok { return; }
      UpdatePreferredDecision(p);
      SetDRState(Relocated, p);
    }

    // -------------------------------------------------------------------------
    // Finishing either action
    // -------------------------------------------------------------------------

    /** Refreshes the MW of a primary; refuses to touch any other. */
    method EnsureVRGManifestWork(t: Cluster) returns (ok: bool)
      requires Valid() && Toward(ctx, t) && SeenAs(ctx.views, t, Primary)
      modifies this`mw, this`decisions, this`status, this`trace
      ensures Valid() && decisions == old(decisions) && status == old(status)
      ensures ok ==> WorkIs(old(mw), t, Primary) && WorkIs(mw, t, Primary)
      ensures mw == if ok then WriteWork(ctx, old(mw), RefreshWork(t)) else old(mw)
      ensures SameRoles(old(mw), mw)
      ensures t in mw ==> mw[t].rdSpec == old(mw)[t].rdSpec
      ensures !ctx.env.faulty ==> ok == WorkIs(old(mw), t, Primary)
    {
      var r := ReadWork(t);
      if r != Fine { return false; }
      if mw[t].role != Primary { return false; }
      if t !in ctx.views { return false; }
      ok := Perform(RefreshWork(t));
    }

    /** Refreshes the MW of a primary; `ready` once the primary is. */
    method RefreshAndAwait(t: Cluster) returns (ready: bool)
      requires Valid() && Toward(ctx, t) && SeenAs(ctx.views, t, Primary)
      modifies this`mw, this`decisions, this`status, this`trace
      ensures Valid() && decisions == old(decisions)
      ensures status == if ready then old(status) else old(status).(progression := WaitForReadiness)
      ensures mw == old(mw) || (WorkIs(old(mw), t, Primary) && mw == WriteWork(ctx, old(mw), RefreshWork(t)))
      ensures SameRoles(old(mw), mw) && (t in mw ==> mw[t].rdSpec == old(mw)[t].rdSpec)
      ensures ready ==> Ready(ctx.views[t]) && WorkIs(mw, t, Primary)
      ensures !ctx.env.faulty ==> ready == (Ready(ctx.views[t]) && WorkIs(old(mw), t, Primary))
    {
      var ok := EnsureVRGManifestWork(t);
      ready := ok && Ready(ctx.views[t]);
      if !ready { SetProgression(WaitForReadiness, t); }
    }

    /** Records the cluster and the action in annotations, then makes the placement name the cluster. */
    method EnsurePlacement(t: Cluster) returns (ok: bool)
      requires Valid() && Toward(ctx, t) && Arrived(ctx, t) && WorkIs(mw, t, Primary)
      modifies this`mw, this`decisions, this`status, this`trace
      ensures Valid() && mw == old(mw) && status == old(status).(preferred := status.preferred)
      ensures status.preferred in {old(status).preferred, Recorded(ctx, old(status))}
      ensures ok ==> Home(ctx.kind, decisions) == Some(t) && Readable(ctx, decisions)
      ensures decisions == if ok then Placed(ctx, t, old(decisions)) else old(decisions)
      ensures !ctx.env.faulty && Readable(ctx, old(decisions)) ==> ok
    {
      var annotated := true;
      if ctx.env.faulty { annotated := *; }
      if !annotated { return false; }
      if Home(ctx.kind, decisions) != Some(t) {
        UpdatePreferredDecision(t);
        ghost var before := decisions;
        ok := EditPlacement(Place(t, Named(t)));
        if ok { UpdateSetsHome(ctx.kind, before, Place(t, Named(t))); }
        return;
      }
      ok := true;
    }

    method ResetVolSyncRDOnPrimary(t: Cluster) returns (ok: bool)
      requires Valid() && Toward(ctx, t) && Arrived(ctx, t)
      modifies this`mw, this`decisions, this`status, this`trace
      ensures Valid() && decisions == old(decisions) && status == old(status)
      ensures mw == old(mw) || mw == WriteWork(ctx, old(mw), ClearRDSpec(t))
      ensures ok && !ctx.env.volSyncDisabled && t in mw ==> mw[t].role == Primary && !mw[t].rdSpec
      ensures !ctx.env.faulty && WorkIs(old(mw), t, Primary) ==> ok
      ensures ctx.env.volSyncDisabled ==> mw == old(mw)
      ensures SameRoles(old(mw), mw)
    {
      if ctx.env.volSyncDisabled { return true; }
      var r := ReadWork(t);
      if r == NotFound { return true; }
      if r == Failed { return false; }
      if mw[t].role != Primary { return false; }
      if !mw[t].rdSpec { return true; }
      ok := Perform(ClearRDSpec(t));
    }

    /** Makes the other cluster a replication destination; a destination created just now is waited for. */
    method EnsureSecondaryReplicationSetup(t: Cluster) returns (ok: bool)
      requires Valid() && Toward(ctx, t) && Arrived(ctx, t) && WorkIs(mw, t, Primary)
      modifies this`mw, this`decisions, this`status, this`trace
      ensures Valid() && decisions == old(decisions) && status == old(status).(progression := status.progression)
      ensures status.progression in {EnsuringSecondarySetup, SettingUpVolSyncDest}
      ensures mw == old(mw) || mw == WriteWork(ctx, old(mw), SetupSecondary(Peer(t), Destinations(ctx, t)))
      ensures ok ==> Destination(ctx, t, mw)
      ensures WorkIs(mw, t, Primary) && mw[t] == old(mw)[t]
      ensures WorkIs(old(mw), Peer(t), Secondary) ==> WorkIs(mw, Peer(t), Secondary)
      ensures !ctx.env.faulty && Peer(t) in old(mw) ==> ok == ctx.env.volSyncReady && WorkIs(mw, Peer(t), Secondary)
    {
      var q := Peer(t);
      SetProgression(EnsuringSecondarySetup, t);
      SetProgression(SettingUpVolSyncDest, t);
      var r := ReadWork(t);
      if r != Fine { return false; }
      var created := q !in mw;
      ok := Perform(SetupSecondary(q, Destinations(ctx, t)));
      if !ok || created { return false; }
      ok := ctx.env.volSyncReady;
    }

    /** The peer is ready: Secondary in its MW, and seen settled as Secondary. */
    ghost predicate PeerSettled(t: Cluster) reads this { CleanupDue(ctx, t, Now()) }

    method CleanupSecondary(t: Cluster, c: Cluster) returns (ready: bool)
      requires Valid() && Toward(ctx, t) && Arrived(ctx, t) && WorkIs(mw, t, Primary) && c == Peer(t)
      requires status.progression != Completed
      modifies this`mw, this`decisions, this`status, this`trace
      ensures Valid() && status == old(status).(progression := status.progression) && status.progression != Completed
      ensures Home(ctx.kind, decisions) == Home(ctx.kind, old(decisions))
      ensures Readable(ctx, old(decisions)) ==> Readable(ctx, decisions)
      ensures WorkIs(mw, t, Primary) && mw[t] == old(mw)[t]
      ensures ready ==> PeerSettled(t) && mw == old(mw) && decisions == WritePlacement(ctx.kind, old(decisions), DropPlacement(c))
      ensures WorkIs(old(mw), c, Secondary) || (!ctx.env.faulty && c in old(mw)) ==> WorkIs(mw, c, Secondary)
      ensures !ctx.env.faulty && old(PeerSettled(t)) && Readable(ctx, old(decisions)) ==> ready
    {
      var justUpdated, r := UpdateVRGState(c, Secondary);
      if r != Fine {
        if r == NotFound { var _ := EnsureSecondaryReplicationSetup(t); }
        return false;
      }
      if justUpdated { return false; }
      if c !in ctx.views { return false; }
      if ctx.views[c].spec.role != Secondary || ctx.views[c].status.observed != ctx.views[c].generation { return false; }
      DropKeepsHome(ctx.kind, decisions, c);
      var dropped := EditPlacement(DropPlacement(c));
      if !dropped { return false; }
      ready := EnsureVRGIsSecondaryOnCluster(c);
    }

    method CleanupSecondaries(t: Cluster) returns (ok: bool)
      requires Valid() && Toward(ctx, t) && Arrived(ctx, t) && WorkIs(mw, t, Primary) && status.progression != Completed
      modifies this`mw, this`decisions, this`status, this`trace
      ensures Valid() && status.progression != Completed
      ensures status.phase == old(status).phase && status.preferred == old(status).preferred
      ensures Home(ctx.kind, decisions) == Home(ctx.kind, old(decisions))
      ensures WorkIs(mw, t, Primary) && mw[t] == old(mw)[t]
      ensures WorkIs(old(mw), Peer(t), Secondary) || (!ctx.env.faulty && Peer(t) in old(mw)) ==> WorkIs(mw, Peer(t), Secondary)
      ensures ok ==> Tallied(status) && PeerSettled(t)
      ensures !ctx.env.faulty && old(PeerSettled(t)) && Readable(ctx, old(decisions)) ==> ok
    {
      var i := 0;
      while i < |clusters|
        invariant i <= |clusters| && Valid() && status.progression != Completed && status.phase == old(status).phase
        invariant status.peerReady == old(status).peerReady && status.preferred == old(status).preferred
        invariant Home(ctx.kind, decisions) == Home(ctx.kind, old(decisions))
        invariant Readable(ctx, old(decisions)) ==> Readable(ctx, decisions)
        invariant mw == old(mw) && (Peer(t) in clusters[..i] ==> PeerSettled(t))
      {
        if clusters[i] != t {
          var ready := CleanupSecondary(t, clusters[i]);
          if !ready { return false; }
        }
        i := i + 1;
      }
      assert clusters[0] == Peer(t) || clusters[1] == Peer(t);
      SetStatus(status.(peerReady := PeerReady(true, true, true)));
      return true;
    }

    /** Skips the cleanup if PeerReady already carries the current generation. */
    method EnsureCleanup(t: Cluster) returns (ok: bool)
      requires Valid() && Toward(ctx, t) && Arrived(ctx, t) && WorkIs(mw, t, Primary) && status.progression != Completed
      modifies this`mw, this`decisions, this`status, this`trace
      ensures Valid() && status.progression != Completed
      ensures status.phase == old(status).phase && status.preferred == old(status).preferred
      ensures Home(ctx.kind, decisions) == Home(ctx.kind, old(decisions))
      ensures WorkIs(mw, t, Primary) && mw[t] == old(mw)[t]
      ensures WorkIs(old(mw), Peer(t), Secondary) ==> WorkIs(mw, Peer(t), Secondary)
      ensures !ctx.env.faulty && Peer(t) in old(mw) && !Tallied(old(status)) ==> WorkIs(mw, Peer(t), Secondary)
      ensures ok ==> Tallied(status) && (Tallied(old(status)) || PeerSettled(t))
      ensures ok && old(status).peerReady != PeerReady(true, true, true) ==> SawPeerSettled(ctx, t)
      ensures Tallied(old(status)) ==> ok && mw == old(mw) && decisions == old(decisions)
      ensures !ctx.env.faulty && old(PeerSettled(t)) && Readable(ctx, old(decisions)) ==> ok
    {
      if status.peerReady.success && status.peerReady.holds && status.peerReady.current { return true; }
      ok := CleanupSecondaries(t);
    }

    /** Cleans up, then makes the other cluster a replication destination. */
    method CleanUpThenSetUp(t: Cluster) returns (ok: bool)
      requires Valid() && Toward(ctx, t) && Arrived(ctx, t) && WorkIs(mw, t, Primary) && status.progression != Completed
      modifies this`mw, this`decisions, this`status, this`trace
      ensures Valid() && status.progression != Completed
      ensures status.phase == old(status).phase && status.preferred == old(status).preferred
      ensures Home(ctx.kind, decisions) == Home(ctx.kind, old(decisions))
      ensures WorkIs(mw, t, Primary) && mw[t] == old(mw)[t]
      ensures ok ==> Tallied(status) && Destination(ctx, t, mw)
      ensures ok && old(status).peerReady != PeerReady(true, true, true) ==> SawPeerSettled(ctx, t)
      ensures !ctx.env.faulty && Peer(t) in old(mw) ==> WorkIs(mw, Peer(t), Secondary)
      ensures !ctx.env.faulty && old(PeerSettled(t)) && Readable(ctx, old(decisions)) && ctx.env.volSyncReady ==> ok
      ensures Tallied(old(status)) ==> Tallied(status) && decisions == old(decisions)
      ensures !ctx.env.faulty && Tallied(old(status)) && Peer(t) in old(mw) && ctx.env.volSyncReady ==> ok
    {
      ok := EnsureCleanup(t);
      if !ok { return; }
      ok := EnsureSecondaryReplicationSetup(t);
    }

    method EnsureCleanupAndSecondaryReplicationSetup(t: Cluster) returns (ok: bool)
      requires Valid() && Toward(ctx, t) && Arrived(ctx, t) && WorkIs(mw, t, Primary) && status.progression != Completed
      modifies this`mw, this`decisions, this`status, this`trace
      ensures Valid() && status.progression != Completed
      ensures status.phase == old(status).phase && status.preferred == old(status).preferred
      ensures Home(ctx.kind, decisions) == Home(ctx.kind, old(decisions))
      ensures WorkIs(mw, t, Primary)
      ensures ok ==> Tallied(status) && Destination(ctx, t, mw) && !ctx.views[t].spec.rdSpec
      ensures ok && old(status).peerReady != PeerReady(true, true, true) ==> SawPeerSettled(ctx, t)
      ensures UpToDate(ctx, t, old(mw)) ==> UpToDate(ctx, t, mw)
      ensures !ctx.env.faulty ==> mw[t].rdSpec == (old(mw)[t].rdSpec && ctx.env.volSyncDisabled)
      ensures !ctx.env.faulty && Peer(t) in old(mw) && !ctx.views[t].spec.rdSpec ==> WorkIs(mw, Peer(t), Secondary)
      ensures !ctx.env.faulty && old(PeerSettled(t)) && Readable(ctx, old(decisions)) && ctx.env.volSyncReady ==>
                ok == !ctx.views[t].spec.rdSpec
      ensures !ctx.env.faulty && Tallied(old(status)) ==> Tallied(status) && decisions == old(decisions)
      ensures !ctx.env.faulty && Tallied(old(status)) && Peer(t) in old(mw) && ctx.env.volSyncReady ==>
                ok == !ctx.views[t].spec.rdSpec
    {
      ok := ResetVolSyncRDOnPrimary(t);
      if !ok { return; }
      assert old(PeerSettled(t)) ==> PeerSettled(t);
      assert !ctx.env.faulty ==> mw[t].rdSpec == (old(mw)[t].rdSpec && ctx.env.volSyncDisabled);
      if ctx.views[t].spec.rdSpec { return false; }
      ok := CleanUpThenSetUp(t);
    }

    /** Refreshes the MW of the target, then places the workload there. */
    method RefreshAndPlace(t: Cluster) returns (ok: bool)
      requires Valid() && Toward(ctx, t) && Arrived(ctx, t)
      modifies this`mw, this`decisions, this`status, this`trace
      ensures Valid() && status == old(status).(preferred := status.preferred)
      ensures status.preferred in {old(status).preferred, Recorded(ctx, old(status))}
      ensures SameRoles(old(mw), mw) && (t in old(mw) ==> t in mw && mw[t].rdSpec == old(mw)[t].rdSpec)
      ensures ok ==> UpToDate(ctx, t, mw) && Home(ctx.kind, decisions) == Some(t) && Readable(ctx, decisions)
      ensures ok ==> decisions == Placed(ctx, t, old(decisions))
      ensures !ctx.env.faulty && WorkIs(old(mw), t, Primary) && Readable(ctx, old(decisions)) ==> ok
    {
      ok := EnsureVRGManifestWork(t);
      if !ok { return; }
      ok := EnsurePlacement(t);
    }

    /** Cleans up, sets up the destination, and announces completion. */
    method CleanUpAndComplete(t: Cluster) returns (done: bool)
      requires Valid() && Toward(ctx, t) && Arrived(ctx, t) && WorkIs(mw, t, Primary) && status.progression != Completed
      modifies this`mw, this`decisions, this`status, this`trace
      ensures Valid() && (done <==> status.progression == Completed)
      ensures status.phase == old(status).phase && status.preferred == old(status).preferred
      ensures Home(ctx.kind, decisions) == Home(ctx.kind, old(decisions)) && WorkIs(mw, t, Primary)
      ensures done ==> Tallied(status) && Destination(ctx, t, mw)
      ensures done && old(status).peerReady != PeerReady(true, true, true) ==> SawPeerSettled(ctx, t)
      ensures UpToDate(ctx, t, old(mw)) ==> UpToDate(ctx, t, mw)
      ensures !ctx.env.faulty ==> mw[t].rdSpec == (old(mw)[t].rdSpec && ctx.env.volSyncDisabled)
      ensures !ctx.env.faulty && Peer(t) in old(mw) && !ctx.views[t].spec.rdSpec ==> WorkIs(mw, Peer(t), Secondary)
      ensures !ctx.env.faulty && old(PeerSettled(t)) && Readable(ctx, old(decisions)) && ctx.env.volSyncReady ==>
                done == !ctx.views[t].spec.rdSpec
      ensures !ctx.env.faulty && Tallied(old(status)) ==> Tallied(status) && decisions == old(decisions)
      ensures !ctx.env.faulty && Tallied(old(status)) && Peer(t) in old(mw) && ctx.env.volSyncReady ==>
                done == !ctx.views[t].spec.rdSpec
    {
      done := EnsureCleanupAndSecondaryReplicationSetup(t);
      if done { SetStatus(status.(progression := Completed)); }
    }

    method EnsureActionTransition(t: Cluster) returns (done: bool)
      requires Valid() && Toward(ctx, t) && Arrived(ctx, t)
      modifies this`mw, this`decisions, this`status, this`trace
      ensures Valid() && status.phase == old(status).phase && (done <==> status.progression == Completed)
      ensures status.preferred in {old(status).preferred, Recorded(ctx, old(status))}
      ensures done ==> Tallied(status) && Home(ctx.kind, decisions) == Some(t)
      ensures done && old(status).peerReady != PeerReady(true, true, true) ==> SawPeerSettled(ctx, t)
      ensures done ==> UpToDate(ctx, t, mw) && Destination(ctx, t, mw)
      ensures !ctx.env.faulty && WorkIs(old(mw), t, Primary) && Readable(ctx, old(decisions)) ==>
                && Home(ctx.kind, decisions) == Some(t) && WorkIs(mw, t, Primary)
                && mw[t].rdSpec == (old(mw)[t].rdSpec && ctx.env.volSyncDisabled)
                && (Peer(t) in old(mw) && !ctx.views[t].spec.rdSpec ==> WorkIs(mw, Peer(t), Secondary))
                && (old(PeerSettled(t)) && ctx.env.volSyncReady ==> done == !ctx.views[t].spec.rdSpec)
                && (Tallied(old(status)) ==> Tallied(status) && decisions == Placed(ctx, t, old(decisions)))
                && (Tallied(old(status)) && Peer(t) in old(mw) && ctx.env.volSyncReady ==> done == !ctx.views[t].spec.rdSpec)
    {
      SetProgression(CleaningUp, t);
      var ok := RefreshAndPlace(t);
      if !ok { return false; }
      assert old(PeerSettled(t)) ==> PeerSettled(t);
      done := CleanUpAndComplete(t);
    }

    // -------------------------------------------------------------------------
    // The two actions
    // -------------------------------------------------------------------------

    method ValidateAndSelectCurrentPrimary() returns (home: Option<Cluster>, ok: bool)
      requires Valid()
      ensures ok <==> ctx.views != map[] && !(SeenAs(ctx.views, DR1, Primary) && SeenAs(ctx.views, DR2, Primary))
      ensures ok ==> match home
                     case Some(c) => SeenAs(ctx.views, c, Primary)
                     case None => !SeenAs(ctx.views, DR1, Primary) && !SeenAs(ctx.views, DR2, Primary)
    {
      home := None;
      if ctx.views == map[] { return None, false; }
      var primaries, i := 0, 0;
      while i < |clusters|
        invariant 0 <= i <= |clusters|
        invariant primaries == (if 0 < i && SeenAs(ctx.views, clusters[0], Primary) then 1 else 0)
                             + (if 1 < i && SeenAs(ctx.views, clusters[1], Primary) then 1 else 0)
        invariant match home
                  case Some(c) => SeenAs(ctx.views, c, Primary)
                  case None => forall j | 0 <= j < i :: !SeenAs(ctx.views, clusters[j], Primary)
      {
        if SeenAs(ctx.views, clusters[i], Primary) {
          primaries := primaries + 1;
          if home == None { home := Some(clusters[i]); }
        }
        i := i + 1;
      }
      ok := primaries <= 1;
      assert forall j | 0 <= j < 2 :: clusters[j] == DR1 || clusters[j] == DR2;
      assert clusters[0] == DR1 || clusters[1] == DR1;
    }

    method ReadyToSwitchOver(home: Cluster, preferred: Cluster) returns (b: bool)
      ensures b <==> Switchable(ctx, preferred) && home in ctx.views && DataSafe(ctx.views[home])
    {
      if ctx.env.sync {
        if preferred !in ctx.env.drClusters { return false; }
        if Fenced(ctx.env, preferred) { return false; }
      }
      b := home in ctx.views && DataSafe(ctx.views[home]);
    }

    /** Whether the group of the DRPC, if it has one, agrees on the action. */
    method CheckGlobalAction(ghost t: Cluster) returns (met: bool)
      requires Valid() && Toward(ctx, t)
      modifies this`mw, this`decisions, this`status, this`trace
      ensures Valid() && mw == old(mw) && decisions == old(decisions)
      ensures status == old(status) || (!met && status == old(status).(progression := WaitOnGlobalAction))
      ensures met <==> Consensus(ctx.env)
    {
      match ctx.env.group
      case NoGroup => met := true;
      case Group(self, listed) =>
        var pending;
        met, pending := GC.IsGlobalActionInConsensus(self, listed);
        if |pending| > 0 { SetProgression(WaitOnGlobalAction, t); }
    }

    /** The target is ready: the relocation is over but for the cleanup. */
    method CompleteRelocation(p: Cluster) returns (done: bool)
      requires Valid() && ctx.spec.action == Relocate && Toward(ctx, p) && Arrived(ctx, p)
      modifies this
      ensures Valid() && status.phase == Relocated && Counted(old(counts), counts, Relocate, false)
      ensures status.preferred in {old(status).preferred, Recorded(ctx, old(status))}
      ensures done ==> status.progression == Completed && Tallied(status)
      ensures done && old(status).peerReady != PeerReady(true, true, true) ==> SawPeerSettled(ctx, p)
      ensures done ==> Home(ctx.kind, decisions) == Some(p) && UpToDate(ctx, p, mw) && Destination(ctx, p, mw)
      ensures !ctx.env.faulty && WorkIs(old(mw), p, Primary) && Readable(ctx, old(decisions)) ==>
                Arrives(ctx, p, old(Now()), Now())
    {
      SetDRState(Relocated, p);
      done := EnsureActionTransition(p);
    }

    /** The target was already seen Primary: finish the relocation. */
    method FinishRelocation(p: Cluster) returns (done: bool)
      requires Valid() && ctx.spec.action == Relocate && Toward(ctx, p) && SeenAs(ctx.views, p, Primary)
      modifies this
      ensures Valid() && status.preferred == Recorded(ctx, old(status))
      ensures done ==> status.phase == Relocated && status.progression == Completed && Tallied(status)
      ensures done && old(status).peerReady != PeerReady(true, true, true) ==> SawPeerSettled(ctx, p)
      ensures done ==> Home(ctx.kind, decisions) == Some(p) && UpToDate(ctx, p, mw) && Destination(ctx, p, mw)
      ensures Counted(old(counts), counts, Relocate, old(status).phase != Relocating && old(counts).lastPhase == Initiating)
      ensures !ctx.env.faulty && Arrived(ctx, p) && WorkIs(old(mw), p, Primary) && Readable(ctx, old(decisions)) ==>
                Arrives(ctx, p, old(Now()), Now())
    {
      SetDRState(Relocating, p);
      UpdatePreferredDecision(p);
      var ready := RefreshAndAwait(p);
      if !ready { return false; }
      done := CompleteRelocation(p);
    }

    /** Every guard is met: quiesce the old home if it is Primary, demote it, promote the target. */
    method LeaveAndSwitch(p: Cluster, home: Option<Cluster>)
      requires Valid() && ctx.spec.action == Relocate && Toward(ctx, p) && !SeenAs(ctx.views, p, Primary)
      requires home == if SeenAs(ctx.views, Peer(p), Primary) then Some(Peer(p)) else None
      requires !AtRest(status.phase) && MayProceed(status) && Consensus(ctx.env) && (Leaving(ctx, p) ==> CanLeave(ctx, p))
      modifies this
      ensures Valid()
      ensures !ctx.env.faulty && Leaving(ctx, p) && Peer(p) in old(mw) && Readable(ctx, old(decisions)) ==>
                Leaves(ctx, p, old(Now()), Now())
      ensures !ctx.env.faulty && SeenAs(ctx.views, Peer(p), Secondary) ==> Settles(ctx, p, old(Now()), Now())
      ensures status.phase in {old(status).phase, Relocating, Relocated}
      ensures Counted(old(counts), counts, Relocate,
                      status.phase in {Relocating, Relocated} && Begins(old(status).phase, old(counts), Relocating))
    {
      if home.Some? && home.value != p {
        var quiesced := QuiesceAndRunFinalSync(p);
        if !quiesced { return; }
      }
      var _ := RelocateTo(p);
    }

    /** The target is not seen Primary: check the guards, then leave the old home for the target. */
    method StartRelocation(p: Cluster, home: Option<Cluster>)
      requires Valid() && ctx.spec.action == Relocate && Toward(ctx, p) && !SeenAs(ctx.views, p, Primary)
      requires home == if SeenAs(ctx.views, Peer(p), Primary) then Some(Peer(p)) else None
      modifies this
      ensures Valid()
      ensures !ctx.env.faulty && CanLeave(ctx, p) && Consensus(ctx.env) && MayProceed(old(status)) ==>
                Peer(p) in old(mw) && Readable(ctx, old(decisions)) ==> Leaves(ctx, p, old(Now()), Now())
      ensures !ctx.env.faulty && SeenAs(ctx.views, Peer(p), Secondary) && Consensus(ctx.env) && MayProceed(old(status)) ==>
                Settles(ctx, p, old(Now()), Now())
      ensures !MayProceed(old(status)) || !Consensus(ctx.env) || (Leaving(ctx, p) && !CanLeave(ctx, p)) ==>
                && mw == old(mw) && decisions == old(decisions)
                && status.phase == Initiated(old(status)).phase && status.peerReady == old(status).peerReady
      ensures status.phase in {Initiated(old(status)).phase, Relocating, Relocated}
      ensures Counted(old(counts), counts, Relocate,
                      status.phase in {Relocating, Relocated} && Begins(old(status).phase, old(counts), Relocating))
    {
      SetStatusInitiating(p);
      var met := CheckGlobalAction(p);
      if !met { return; }
      if home.Some? && home.value != p {
        var ready := ReadyToSwitchOver(home.value, p);
        if !ready { return; }
      }
      if status.phase != Relocating && !status.peerReady.holds { return; }
      LeaveAndSwitch(p, home);
    }

    method RunRelocate() returns (done: bool)
      requires Valid() && ctx.spec.action == Relocate
      modifies this
      ensures Valid()
      ensures done ==> status.phase == Relocated && status.progression == Completed && Tallied(status)
      ensures done ==> Home(ctx.kind, decisions) == ctx.spec.preferredCluster
      ensures done ==> ctx.spec.preferredCluster.Some? && ctx.spec.preferredCluster.value in ctx.views
      ensures done ==> var p := ctx.spec.preferredCluster.value; UpToDate(ctx, p, mw) && Destination(ctx, p, mw)
      ensures done && old(status).peerReady != PeerReady(true, true, true) ==>
                SawPeerSettled(ctx, ctx.spec.preferredCluster.value)
      ensures done ==> status.preferred.Some? && (old(status).preferred.Some? ==> status.preferred == old(status).preferred)
      ensures ctx.spec.preferredCluster.Some? && SeenAs(ctx.views, ctx.spec.preferredCluster.value, Primary) ==>
                old(counts).lastPhase != Initiating ==> Counted(old(counts), counts, Relocate, false)
      ensures !ctx.env.faulty && {DR1, DR2} <= ctx.env.reachable && ctx.spec.preferredCluster.Some? ==>
                Advances(ctx, ctx.spec.preferredCluster.value, old(Now()), Now())
      ensures ctx.spec.preferredCluster.Some? && !SeenAs(ctx.views, ctx.spec.preferredCluster.value, Primary) ==>
                status.phase != Relocated ==>
                  Counted(old(counts), counts, Relocate,
                          status.phase == Relocating && Begins(old(status).phase, old(counts), Relocating))
      ensures ctx.spec.preferredCluster == None || !({DR1, DR2} <= ctx.env.reachable) ==>
                mw == old(mw) && decisions == old(decisions)
      ensures ctx.spec.preferredCluster.Some? && !SeenAs(ctx.views, ctx.spec.preferredCluster.value, Primary) ==>
                var p := ctx.spec.preferredCluster.value;
                !MayProceed(old(status)) || !Consensus(ctx.env) || (Leaving(ctx, p) && !CanLeave(ctx, p)) ==>
                  mw == old(mw) && decisions == old(decisions)
    {
      if !({DR1, DR2} <= ctx.env.reachable) { return false; }
      if ctx.spec.preferredCluster == None { return false; }
      var p := ctx.spec.preferredCluster.value;
      assert p == DR1 || p == DR2;
      var home, ok := ValidateAndSelectCurrentPrimary();
      if !ok { return false; }
      if home.Some? && SeenAs(ctx.views, p, Primary) {
        done := FinishRelocation(p);
        return;
      }
      assert home.Some? ==> home.value == DR1 || home.value == DR2;
      StartRelocation(p, home);
      done := false;
    }

    method IsValidFailoverTarget(t: Cluster) returns (b: bool)
      ensures b <==> t in ctx.views && (SeenAs(ctx.views, t, Primary) || SettledSecondary(ctx.views[t]))
    {
      if t !in ctx.views { return false; }
      if ctx.views[t].spec.role == Primary { return true; }
      b := ctx.views[t].status.state == AsSecondary && ctx.views[t].status.observed == ctx.views[t].generation;
    }

    method MwExistsAndPlacementUpdated(t: Cluster) returns (b: bool, ok: bool)
      ensures ok ==> b == (t in mw && Home(ctx.kind, decisions) == Some(t))
      ensures !ctx.env.faulty ==> ok
    {
      var r := ReadWork(t);
      if r == Failed { return false, false; }
      b := r == Fine && Home(ctx.kind, decisions) == Some(t);
      ok := true;
    }

    /** Metro: the cluster failed away from is fenced.  Regional: the failover cluster runs every
        maintenance mode the last known primary asks for. */
    method CheckFailoverPrerequisites(t: Cluster, home: Cluster) returns (met: bool)
      requires Valid() && Toward(ctx, t)
      modifies this`mw, this`decisions, this`status, this`trace
      ensures Valid() && mw == old(mw) && decisions == old(decisions)
      ensures status == old(status).(progression :=
                if ctx.env.sync then WaitForFencing else WaitForStorageMaintenanceActivation)
      ensures met <==> Prerequisites(ctx, t, home)
    {
      if ctx.env.sync {
        SetProgression(WaitForFencing, t);
        met := Fenced(ctx.env, home);
      } else {
        SetProgression(WaitForStorageMaintenanceActivation, t);
        var pvcs := LastPrimaryPVCs(ctx, t);
        if t in ctx.env.drClusters && pvcs.Some? {
          met := MM.CheckRequired(ctx.env.drClusters[t].modes, pvcs.value);
        } else {
          met := true;
        }
      }
    }

    /** With every guard met: retain the old decision, then promote the target. */
    method RetainAndSwitch(t: Cluster, home: Cluster)
      requires Valid() && ctx.spec.action == Failover && Toward(ctx, t) && !status.peerReady.holds && ctx.home == Some(home)
      requires ValidTarget(ctx, t) && !SeenAs(ctx.views, t, Primary) && Consensus(ctx.env) && Prerequisites(ctx, t, home)
      requires Home(ctx.kind, decisions) == None || Home(ctx.kind, decisions) == Some(home)
      requires status.phase == FailingOver && status.peerReady.current && !status.peerReady.success
      modifies this`mw, this`decisions, this`status, this`trace
      ensures Valid() && status == old(status).(progression := status.progression)
      ensures !ctx.env.faulty && Readable(ctx, old(decisions)) && !WorkIs(old(mw), t, Primary) ==>
                FailsOver(ctx, t, old(Now()), Now())
    {
      SetProgression(FailingOverToCluster, t);
      ghost var before := decisions;
      var ok := EditPlacement(RetainPlacement(home));
      if !ok { return; }
      if ctx.kind == ByPlacement { RetainEffect(before, home, home); }
      assert Home(ctx.kind, decisions) == None || (ctx.kind == ByPlacementRule && Home(ctx.kind, decisions) == Some(home));
      ok := SwitchToCluster(t, Unnamed);
      // a target settled as Secondary is never ready: FailedOver is left to the next reconcile
      assert !ok;
    }

    /** Checks the prerequisites, and fails over if they are met. */
    method FailOverFrom(t: Cluster, home: Cluster)
      requires Valid() && ctx.spec.action == Failover && Toward(ctx, t) && ctx.home == Some(home)
      requires ValidTarget(ctx, t) && !SeenAs(ctx.views, t, Primary) && Consensus(ctx.env)
      requires Home(ctx.kind, decisions) == None || Home(ctx.kind, decisions) == Some(home)
      requires status.phase == FailingOver && status.peerReady == PeerReady(false, false, true)
      modifies this`mw, this`decisions, this`status, this`trace
      ensures Valid() && status == old(status).(progression := status.progression)
      ensures !Prerequisites(ctx, t, home) ==> WaitsFor(ctx, old(Now()), Now())
      ensures !ctx.env.faulty && Readable(ctx, old(decisions)) && !WorkIs(old(mw), t, Primary) && Prerequisites(ctx, t, home) ==>
                FailsOver(ctx, t, old(Now()), Now())
    {
      var met := CheckFailoverPrerequisites(t, home);
      if !met { return; }
      RetainAndSwitch(t, home);
    }

    method SwitchToFailoverCluster(t: Cluster) returns (done: bool)
      requires Valid() && ctx.spec.action == Failover && Toward(ctx, t)
      requires decisions == start.decisions && status.preferred == start.status.preferred
      requires ValidTarget(ctx, t) && !SeenAs(ctx.views, t, Primary) && Consensus(ctx.env)
      modifies this
      ensures Valid() && !status.peerReady.holds
      ensures mw != old(mw) || decisions != old(decisions) ==>
                ctx.home.Some? && Prerequisites(ctx, t, ctx.home.value)
      ensures ctx.home.Some? && !Prerequisites(ctx, t, ctx.home.value) ==> WaitsFor(ctx, old(Now()), Now())
      ensures !ctx.env.faulty && Readable(ctx, old(decisions)) && !WorkIs(old(mw), t, Primary) ==>
                ctx.home.Some? && Prerequisites(ctx, t, ctx.home.value) ==>
                  FailsOver(ctx, t, old(Now()), Now())
      ensures done ==> ctx.home == None
      ensures status.phase == FailingOver
      ensures counts == if old(status).phase == FailingOver then old(counts) else AC.Observe(old(counts), FailingOver)
    {
      EnterPhase(FailingOver, t);
      SetProgression(CheckingFailoverPrerequisites, t);
      var home := CurrentHome(ctx.spec, ctx.kind, ctx.env, decisions, status.preferred);
      if home == None { return true; }
      FailOverFrom(t, home.value);
      return false;
    }

    /** The target was already seen Primary: finish the failover. */
    method FinishFailover(t: Cluster) returns (done: bool)
      requires Valid() && ctx.spec.action == Failover && Toward(ctx, t) && SeenAs(ctx.views, t, Primary)
      modifies this
      ensures Valid() && status.phase == FailedOver && Counted(old(counts), counts, Failover, false)
      ensures status.preferred == Recorded(ctx, old(status))
      ensures done ==> status.progression == Completed && Tallied(status) && Home(ctx.kind, decisions) == Some(t)
      ensures done && old(status).peerReady != PeerReady(true, true, true) ==> SawPeerSettled(ctx, t)
      ensures done ==> UpToDate(ctx, t, mw) && Destination(ctx, t, mw)
      ensures !ctx.env.faulty && Arrived(ctx, t) && WorkIs(old(mw), t, Primary) && Readable(ctx, old(decisions)) ==>
                FailoverArrives(ctx, t, old(Now()), Now())
      ensures !Ready(ctx.views[t]) ==> FailoverWaits(ctx, t, old(Now()), Now())
    {
      UpdatePreferredDecision(t);
      SetDRState(FailedOver, t);
      var ready := RefreshAndAwait(t);
      if !ready { return false; }
      done := EnsureActionTransition(t);
    }

    /** `ok` is false when the reconcile ends with an error. */
    method RunFailover() returns (done: bool, ok: bool)
      requires Valid() && Now() == start && ctx.spec.action == Failover
      modifies this
      ensures Valid()
      ensures done && ok ==> status.phase == FailedOver && status.progression == Completed && Tallied(status)
      ensures done && ok ==> ctx.spec.failoverCluster.Some? && Home(ctx.kind, decisions) == ctx.spec.failoverCluster
      ensures done && ok ==> ctx.spec.failoverCluster.value in ctx.views
      ensures done && ok && old(status).peerReady != PeerReady(true, true, true) ==>
                SawPeerSettled(ctx, ctx.spec.failoverCluster.value)
      ensures done && ok ==> status.preferred == if old(status).preferred.Some? then old(status).preferred else ctx.spec.preferredCluster
      ensures done && ok ==> var t := ctx.spec.failoverCluster.value; UpToDate(ctx, t, mw) && Destination(ctx, t, mw)
      ensures ctx.spec.failoverCluster == None ==> done && !ok && Now() == old(Now())
      ensures Counted(old(counts), counts, Failover,
                      status.phase == FailingOver && Begins(old(status).phase, old(counts), FailingOver))
      ensures
        ctx.spec.failoverCluster.Some? && (mw != old(mw) || decisions != old(decisions)) ==>
          var t := ctx.spec.failoverCluster.value;
          || SeenAs(ctx.views, t, Primary)
          || (FailoverDue(ctx, t, old(Now())) && Prerequisites(ctx, t, ctx.home.value))
      ensures !ctx.env.faulty && ctx.spec.failoverCluster.Some? && Readable(ctx, old(decisions)) ==>
                FailoverAdvances(ctx, ctx.spec.failoverCluster.value, old(Now()), Now())
    {
      if ctx.spec.failoverCluster == None { return true, false; }
      var t := ctx.spec.failoverCluster.value;
      ok := IsValidFailoverTarget(t);
      if !ok { return false, false; }
      if SeenAs(ctx.views, t, Primary) {
        done := FinishFailover(t);
        return done, true;
      }
      var placed;
      placed, ok := MwExistsAndPlacementUpdated(t);
      if placed || !ok { return false, ok; }
      SetStatusInitiating(t);
      var met := CheckGlobalAction(t);
      if !met { return false, true; }
      done := SwitchToFailoverCluster(t);
      ok := !done;
    }
  }
}
