/** What a completed failover means: the old home was cleaned up.  The hub remembers that cleanup is due
    only in the PeerReady condition of the DRPC.  After the promotion, completion without cleanup is
    possible if and only if the stored status still says PeerReady. */
module FailoverCompletion {
  import opened Options
  import opened DRTypes
  import opened PlacementDecisions
  import opened Protocol
  import opened Executions
  import opened RelocateSafety
  import opened FailoverSafety
  import FailoverHistory

  /** The status the hub goes by: the unsaved one of a reconcile in progress, or the stored one. */
  function InForce(s: State): Status {
    match s.hub case Busy(_, work) => work case Idle => s.status
  }

  /** No reconcile that leaves the target promoted loses a withdrawal of PeerReady. */
  predicate KeepsWithdrawals(x: Execution, t: Cluster)
    requires |x.states| == |x.events| + 1
  {
    forall i | 0 <= i < |x.events| && x.events[i] == Stop(false) && WorkIs(x.states[i].mw, t, Primary) ::
      x.states[i].status.peerReady.holds ==> InForce(x.states[i]).peerReady.holds
  }

  /** A reconcile finds the target Primary and ready, and the old home settled as Secondary. */
  predicate CleanedUp(s: State, t: Cluster) {
    && s.hub.Busy? && Arrived(s.hub.ctx, t) && WorkIs(s.mw, Peer(t), Secondary)
    && Peer(t) in s.hub.ctx.views
    && var seen := s.hub.ctx.views[Peer(t)];
       seen.status.state == AsSecondary && seen.status.observed == seen.generation
  }

  ghost predicate OnceCleaned(x: Execution, t: Cluster, k: nat) {
    exists j: nat :: j <= k && j < |x.states| && CleanedUp(x.states[j], t)
  }

  /** PeerReady holds after the promotion only if the old home was cleaned up. */
  ghost predicate CleanInv(x: Execution, t: Cluster, k: nat)
    requires k < |x.states|
  {
    WorkIs(x.states[k].mw, t, Primary) && InForce(x.states[k]).peerReady.holds ==> OnceCleaned(x, t, k)
  }

  lemma StepKeepsClean(r: Run, t: Cluster, x: Execution, k: nat)
    requires FailoverHistory.StepOk(r, t, x, k) && CleanInv(x, t, k) && KeepsWithdrawals(x, t)
    ensures CleanInv(x, t, k + 1)
  {
    var s, e, n := x.states[k], x.events[k], x.states[k + 1];
    assert OnceCleaned(x, t, k) ==> OnceCleaned(x, t, k + 1);
    if e.Write? {
      WriteRoles(r, t, s, e.act);
      if e.act.SetStatus? && !InForce(s).peerReady.holds && InForce(n).peerReady.holds {
        assert CleanedUp(s, t);
      }
    } else {
      LookFacts(r, s, e, t);
    }
  }

  lemma CleanAfter(r: Run, t: Cluster, x: Execution, k: nat)
    requires FailoverRun(r, t, x) && KeepsWithdrawals(x, t) && k + 1 < |x.states| && CleanInv(x, t, k)
    ensures CleanInv(x, t, k + 1)
  {
    FailoverHistory.StepAt(r, t, x, k);
    StepKeepsClean(r, t, x, k);
  }

  lemma {:induction false} CleanAlways(r: Run, t: Cluster, x: Execution, k: nat)
    requires FailoverRun(r, t, x) && KeepsWithdrawals(x, t) && k < |x.states|
    ensures CleanInv(x, t, k)
  {
    if k > 0 {
      CleanAlways(r, t, x, k - 1);
      CleanAfter(r, t, x, k - 1);
    }
  }

  /** Step `k` announces completion. */
  predicate Announces(x: Execution, k: nat)
    requires k < |x.events| && k < |x.states|
  {
    && x.events[k].Write? && x.events[k].act.SetStatus? && x.events[k].act.status.progression == Completed
    && InForce(x.states[k]).progression != Completed
  }

  lemma OldHomeStillDemoted(r: Run, t: Cluster, x: Execution, k: nat)
    requires FailoverRun(r, t, x) && k + 1 < |x.states| && WorkIs(x.states[k].mw, Peer(t), Secondary)
    ensures WorkIs(x.states[k + 1].mw, Peer(t), Secondary)
  {
    FailoverHistory.StepAt(r, t, x, k);
    if x.events[k].Write? { WriteRoles(r, t, x.states[k], x.events[k].act); }
  }

  lemma {:induction false} OldHomeStaysDemoted(r: Run, t: Cluster, x: Execution, j: nat, k: nat)
    requires FailoverRun(r, t, x) && j <= k < |x.states| && WorkIs(x.states[j].mw, Peer(t), Secondary)
    ensures WorkIs(x.states[k].mw, Peer(t), Secondary)
    decreases k
  {
    if j < k {
      OldHomeStaysDemoted(r, t, x, j, k - 1);
      OldHomeStillDemoted(r, t, x, k - 1);
    }
  }

  /** If no withdrawal of PeerReady is lost, completion is announced only after the old home was
      found settled as Secondary, and the old home is Secondary from then on. */
  lemma CompletionMeansCleaned(r: Run, t: Cluster, x: Execution, k: nat)
    requires FailoverRun(r, t, x) && KeepsWithdrawals(x, t) && k < |x.events| && Announces(x, k)
    ensures OnceCleaned(x, t, k) && WorkIs(x.states[k].mw, Peer(t), Secondary)
  {
    CleanAlways(r, t, x, k);
    FailoverHistory.StepAt(r, t, x, k);
    var j: nat :| j <= k && CleanedUp(x.states[j], t);
    OldHomeStaysDemoted(r, t, x, j, k);
  }

  // ---------------------------------------------------------------------------
  // A withdrawn PeerReady is never restored without cleanup
  // ---------------------------------------------------------------------------

  /** After the promotion: PeerReady is withdrawn, in the store and in memory, or the old home was
      cleaned up. */
  ghost predicate Withdrawn(x: Execution, t: Cluster, k: nat)
    requires k < |x.states|
  {
    && WorkIs(x.states[k].mw, t, Primary)
    && ((!x.states[k].status.peerReady.holds && !InForce(x.states[k]).peerReady.holds) || OnceCleaned(x, t, k))
  }

  lemma StepKeepsWithdrawn(r: Run, t: Cluster, x: Execution, k: nat)
    requires FailoverHistory.StepOk(r, t, x, k) && Withdrawn(x, t, k)
    ensures Withdrawn(x, t, k + 1)
  {
    var s, e, n := x.states[k], x.events[k], x.states[k + 1];
    assert OnceCleaned(x, t, k) ==> OnceCleaned(x, t, k + 1);
    if e.Write? {
      WriteRoles(r, t, s, e.act);
      if e.act.SetStatus? && InForce(n).peerReady.holds && !InForce(s).peerReady.holds {
        assert CleanedUp(s, t);
      }
    } else {
      LookFacts(r, s, e, t);
    }
  }

  lemma WithdrawnAfter(r: Run, t: Cluster, x: Execution, k: nat)
    requires FailoverRun(r, t, x) && k + 1 < |x.states| && Withdrawn(x, t, k)
    ensures Withdrawn(x, t, k + 1)
  {
    FailoverHistory.StepAt(r, t, x, k);
    StepKeepsWithdrawn(r, t, x, k);
  }

  lemma {:induction false} WithdrawnStays(r: Run, t: Cluster, x: Execution, j: nat, k: nat)
    requires FailoverRun(r, t, x) && j <= k < |x.states| && Withdrawn(x, t, j)
    ensures Withdrawn(x, t, k)
    decreases k
  {
    if j < k {
      WithdrawnStays(r, t, x, j, k - 1);
      WithdrawnAfter(r, t, x, k - 1);
    }
  }

  /** Step `k` announces completion, and the old home was not cleaned up by then. */
  ghost predicate SkipsCleanup(x: Execution, t: Cluster, k: nat) {
    |x.states| == |x.events| + 1 && k < |x.events| && Announces(x, k) && !OnceCleaned(x, t, k)
  }

  lemma WithdrawnNeverSkips(r: Run, t: Cluster, x: Execution, j: nat, k: nat)
    requires FailoverRun(r, t, x) && j <= k < |x.events| && Withdrawn(x, t, j)
    ensures !SkipsCleanup(x, t, k)
  {
    WithdrawnStays(r, t, x, j, k);
    FailoverHistory.StepAt(r, t, x, k);
  }

  // ---------------------------------------------------------------------------
  // A stale PeerReady completes without cleanup
  // ---------------------------------------------------------------------------

  /** Only the target is reached; an asynchronous policy. */
  function TargetOnly(t: Cluster): Env { QuietEnv().(reachable := {t}, volSyncDisabled := false) }

  /** The target as its VRG controller reports it, before and after it is ready. */
  function Restoring(generation: nat): VRGStatus {
    VRGStatus(AsPrimary, generation, Absent, Absent, Absent, Absent, false, false, [], false)
  }

  function Restored(generation: nat): VRGStatus {
    Restoring(generation).(dataReady := Condition(true, generation), clusterDataReady := Condition(true, generation))
  }

  /** No reconcile of the execution sees the old home. */
  ghost predicate Blind(x: Execution, t: Cluster) {
    forall i | 0 <= i < |x.states| :: x.states[i].hub.Busy? ==> Peer(t) !in x.states[i].hub.ctx.views
  }

  function StatusOf(ready: bool, generation: nat): VRGStatus {
    if ready then Restored(generation) else Restoring(generation)
  }

  /** The target's VRG after its MW was applied and it reported. */
  function TargetVRG(s: State, t: Cluster, ready: bool): VRG
    requires t in s.mw
  {
    var applied := Applied(s.live, t, s.mw[t])[t];
    applied.(status := StatusOf(ready, applied.generation))
  }

  function TargetSeen(s: State, t: Cluster, ready: bool): State
    requires t in s.mw
  {
    s.(live := s.live[t := TargetVRG(s, t, ready)], view := s.view[t := TargetVRG(s, t, ready)])
  }

  lemma TargetVRGFacts(s: State, t: Cluster, ready: bool)
    requires WorkIs(s.mw, t, Primary) && HonestViews(s.live)
    ensures var v := TargetVRG(s, t, ready); Honest(v) && v.spec == s.mw[t] && (Ready(v) <==> ready)
    ensures HonestViews(TargetSeen(s, t, ready).live)
  {
    AppliedFacts(s.live, t, s.mw[t]);
  }

  /** The target's MW is applied, its VRG reports, and its view catches up. */
  lemma TargetCatchesUp(r: Run, t: Cluster, s: State, ready: bool) returns (x: Execution)
    requires s.hub.Idle? && WorkIs(s.mw, t, Primary) && HonestViews(s.live)
    ensures IsExecution(r, x) && x.states[0] == s && Blind(x, t) && Last(x) == TargetSeen(s, t, ready)
    ensures forall i | 0 <= i < |x.events| :: !x.events[i].Stop?
  {
    TargetVRGFacts(s, t, ready);
    x := Then(r, Execution([s], []), Apply(t));
    var applied := Last(x).live[t];
    assert Last(x).live == Applied(s.live, t, s.mw[t]);
    x := Then(r, x, Report(t, StatusOf(ready, applied.generation)));
    assert Last(x).live == s.live[t := TargetVRG(s, t, ready)];
    x := Then(r, x, Refresh(t));
  }

  /** A reconcile starts that reaches the target only. */
  lemma BeginBlind(r: Run, t: Cluster, s: State) returns (x: Execution)
    requires s.hub.Idle?
    ensures IsExecution(r, x) && x.states[0] == s && Blind(x, t)
    ensures Last(x) == s.(hub := Busy(CtxOf(r, s, TargetOnly(t)), s.status)) && Peer(t) !in Last(x).hub.ctx.views
  {
    x := Then(r, Execution([s], []), Begin(TargetOnly(t)));
  }

  /** Seen Primary and not ready, the target is waited for, and a status that still says PeerReady is
      saved for the current generation. */
  lemma SaveStaleStatus(r: Run, t: Cluster, s: State) returns (x: Execution)
    requires IsFailover(r, t) && s.hub.Idle? && s.status.peerReady.holds && s.status.peerReady.success
    ensures IsExecution(r, x) && x.states[0] == s && Blind(x, t)
    ensures Last(x) == s.(status := Last(x).status) && Tallied(Last(x).status) && Last(x).status.progression == WaitForReadiness
  {
    x := BeginBlind(r, t, s);
    x := Then(r, x, Write(SetStatus(s.status.(phase := FailedOver, progression := WaitForReadiness))));
    x := Then(r, x, Stop(true));
  }

  /** Seen ready, the target gets the placement; the cleanup is skipped because the stale condition
      tallies, the old home is set up as a destination, and completion is announced. */
  lemma CompleteOnStaleStatus(r: Run, t: Cluster, s: State) returns (x: Execution)
    requires IsFailover(r, t) && s.hub.Idle? && Tallied(s.status) && s.status.progression != Completed
    requires WorkIs(s.mw, t, Primary) && SeenAs(s.view, t, Primary) && Ready(s.view[t])
    ensures IsExecution(r, x) && x.states[0] == s && Blind(x, t) && x.events != [] && Announces(x, |x.events| - 1)
    ensures Last(x).decisions == WritePlacement(r.kind, s.decisions, Place(t, Named(t)))
    ensures Last(x).live == s.live && Last(x).view == s.view
  {
    x := BeginBlind(r, t, s);
    assert Arrived(Last(x).hub.ctx, t);
    x := PlaceAndSetUp(r, t, x);
    x := Then(r, x, Write(SetStatus(s.status.(progression := Completed))));
  }

  lemma PlaceAndSetUp(r: Run, t: Cluster, x: Execution) returns (y: Execution)
    requires IsFailover(r, t) && IsExecution(r, x) && Last(x).hub.Busy? && Last(x).hub.ctx.spec == r.spec
    requires Arrived(Last(x).hub.ctx, t) && WorkIs(Last(x).mw, t, Primary) && Last(x).hub.ctx.kind == r.kind
    requires Blind(x, t)
    ensures IsExecution(r, y) && y.states[0] == x.states[0] && Blind(y, t)
    ensures Last(y).hub == Last(x).hub && WorkIs(Last(y).mw, Peer(t), Secondary)
    ensures Last(y).live == Last(x).live && Last(y).view == Last(x).view
    ensures Last(y).decisions == WritePlacement(r.kind, Last(x).decisions, Place(t, Named(t)))
  {
    y := Then(r, x, Write(Place(t, Named(t))));
    y := Then(r, y, Write(SetupSecondary(Peer(t), false)));
  }

  lemma BlindJoin(x: Execution, y: Execution, z: Execution, t: Cluster)
    requires Blind(x, t) && Blind(y, t) && |y.states| > 0 && z.states == x.states + y.states[1..]
    ensures Blind(z, t)
  {
  }

  lemma StaleStatusCompletes(r: Run, t: Cluster, s: State) returns (x: Execution)
    requires IsFailover(r, t) && s.hub.Idle? && WorkIs(s.mw, t, Primary) && HonestViews(s.live)
    requires s.status.peerReady.holds && s.status.peerReady.success
    ensures IsExecution(r, x) && x.states[0] == s && Blind(x, t) && x.events != [] && Announces(x, |x.events| - 1)
    ensures Last(x).decisions == WritePlacement(r.kind, s.decisions, Place(t, Named(t)))
    ensures SeenAs(s.live, Peer(t), Primary) ==> SeenAs(Last(x).live, Peer(t), Primary)
    ensures SeenAs(s.view, Peer(t), Primary) ==> SeenAs(Last(x).view, Peer(t), Primary)
  {
    TargetVRGFacts(s, t, false);
    var first := TargetCatchesUp(r, t, s, false);
    var second := SaveStaleStatus(r, t, Last(first));
    TargetVRGFacts(Last(second), t, true);
    var third := TargetCatchesUp(r, t, Last(second), true);
    var fourth := CompleteOnStaleStatus(r, t, Last(third));
    var start := Join(r, first, second);
    BlindJoin(first, second, start, t);
    var middle := Join(r, start, third);
    BlindJoin(start, third, middle, t);
    x := Join(r, middle, fourth);
    BlindJoin(middle, fourth, x, t);
    AnnouncedAtEnd(middle, fourth, x);
  }

  lemma AnnouncedAtEnd(x: Execution, y: Execution, z: Execution)
    requires |x.states| == |x.events| + 1 && |y.states| == |y.events| + 1 && y.events != [] && Last(x) == y.states[0]
    requires z.states == x.states + y.states[1..] && z.events == x.events + y.events && Announces(y, |y.events| - 1)
    ensures Announces(z, |z.events| - 1)
  {
    var m := |y.events| - 1;
    assert z.events[|x.events| + m] == y.events[m];
    assert z.states[|x.events| + m] == y.states[m];
  }

  /** Exactly when cleanup can be skipped.  For every failover run that has promoted its target, stands
      between two reconciles and has not cleaned up yet, some continuation announces completion without
      cleanup if and only if the stored status says PeerReady. */
  lemma SkippedCleanupExactly(r: Run, t: Cluster, x: Execution)
    requires FailoverRun(r, t, x) && Last(x).hub.Idle? && WorkIs(Last(x).mw, t, Primary)
    requires !OnceCleaned(x, t, |x.events|) && (Last(x).status.peerReady.holds ==> Last(x).status.peerReady.success)
    ensures
      (exists y, k: nat :: Continues(r, x, y) && |x.events| <= k && SkipsCleanup(y, t, k)) <==>
        Last(x).status.peerReady.holds
  {
    var n := |x.events|;
    if Last(x).status.peerReady.holds {
      PromotionAlways(r, t, x, n);
      var more := StaleStatusCompletes(r, t, Last(x));
      var y := Join(r, x, more);
      AnnouncedAtEnd(x, more, y);
      NotCleanedByJoin(t, x, more, y);
      assert SkipsCleanup(y, t, |y.events| - 1);
    } else {
      forall y, k: nat | Continues(r, x, y) && n <= k ensures !SkipsCleanup(y, t, k) {
        if k < |y.events| {
          assert y.states[0] == x.states[0] && y.states[n] == Last(x);
          WithdrawnNeverSkips(r, t, y, n, k);
        }
      }
    }
  }

  lemma NotCleanedByJoin(t: Cluster, x: Execution, y: Execution, z: Execution)
    requires |x.states| == |x.events| + 1 && |y.states| == |y.events| + 1
    requires z.states == x.states + y.states[1..] && !OnceCleaned(x, t, |x.events|) && Blind(y, t)
    ensures !OnceCleaned(z, t, |z.states|)
  {
    forall j: nat | j < |z.states| ensures !CleanedUp(z.states[j], t) {
      if j < |x.states| { assert z.states[j] == x.states[j]; } else { assert z.states[j] == y.states[j - |x.events|]; }
    }
  }

  // ---------------------------------------------------------------------------
  // A lost withdrawal
  // ---------------------------------------------------------------------------

  /** Nothing stands in the way of the failover in this reconcile. */
  ghost predicate Unhindered(x: Ctx, t: Cluster) {
    && x.spec.action == Failover && x.spec.failoverCluster == Some(t) && x.home == Some(Peer(t))
    && ValidTarget(x, t) && !SeenAs(x.views, t, Primary)
    && Consensus(x.env) && Prerequisites(x, t, Peer(t))
  }

  lemma NothingHinders(r: Run, t: Cluster, s: State)
    requires IsFailover(r, t) && Settled(r, Peer(t), s) && t in s.live && SettledSecondary(s.live[t])
    ensures Unhindered(CtxOf(r, s, QuietEnv()), t)
  {
    HomeOfOne(r.kind, s.decisions);
    var c := CtxOf(r, s, QuietEnv());
    assert t in c.views && c.views[t] == s.live[t];
  }

  /** With PeerReady withdrawn, the old home's decision is retained and the target promoted. */
  lemma RetainAndPromote(r: Run, t: Cluster, x: Execution) returns (y: Execution)
    requires IsExecution(r, x) && Last(x).hub.Busy? && Unhindered(Last(x).hub.ctx, t) && Last(x).hub.ctx.kind == r.kind
    requires !Last(x).hub.work.peerReady.holds && t in Last(x).mw && !WorkIs(Last(x).mw, t, Primary)
    requires Home(r.kind, Last(x).decisions) == Some(Peer(t)) && AtMostOneActive(Last(x).decisions)
    ensures IsExecution(r, y) && y.states[0] == x.states[0]
    ensures Last(y).hub.Busy? && WorkIs(Last(y).mw, t, Primary)
    ensures r.kind == ByPlacement && Keeps(Last(x).decisions, Peer(t)) ==> KeepsRetained(Last(y).decisions, Peer(t))
    ensures AtMostOneActive(Last(y).decisions)
    ensures Last(y).status == Last(x).status && Last(y).live == Last(x).live && Last(y).view == Last(x).view
  {
    y := x;
    if r.kind == ByPlacement {
      RetainEffect(Last(x).decisions, Peer(t), Peer(t));
      if Keeps(Last(x).decisions, Peer(t)) { KeptWithoutHome(Step(Last(x).decisions, Retain(Peer(t))), Peer(t)); }
      y := Then(r, y, Write(RetainPlacement(Peer(t))));
    }
    y := Then(r, y, Write(Promote(t)));
  }

  /** The first reconcile promotes the target and then loses its status. */
  lemma PromoteAndLoseStatus(r: Run, t: Cluster, s: State) returns (x: Execution)
    requires IsFailover(r, t) && Settled(r, Peer(t), s)
    requires t in s.live && SettledSecondary(s.live[t])
    ensures IsExecution(r, x) && x.states[0] == s
    ensures Last(x).hub.Idle? && Last(x).status == s.status && Last(x).live == s.live && Last(x).view == s.view
    ensures WorkIs(Last(x).mw, t, Primary) && AtMostOneActive(Last(x).decisions)
    ensures r.kind == ByPlacement ==> KeepsRetained(Last(x).decisions, Peer(t))
  {
    assert s.decisions[0].cluster == Peer(t);
    HomeOfOne(r.kind, s.decisions);
    NothingHinders(r, t, s);
    var withdrawn := Status(FailingOver, CheckingFailoverPrerequisites, PeerReady(false, false, true), s.status.preferred);
    x := Then(r, Execution([s], []), Begin(QuietEnv()));
    x := Then(r, x, Write(SetStatus(withdrawn)));
    x := RetainAndPromote(r, t, x);
    x := Then(r, x, Stop(false));
  }

  /** One lost status is enough: from every settled start with a settled target and a DRPC that was
      PeerReady, some execution announces completion while the old home's VRG still is Primary, and
      a Placement keeps the decision that sends the workload there. */
  lemma LostWithdrawalSkipsCleanup(r: Run, t: Cluster, s: State) returns (x: Execution)
    requires IsFailover(r, t) && Settled(r, Peer(t), s) && s.status.peerReady.success
    requires t in s.live && SettledSecondary(s.live[t])
    ensures FailoverRun(r, t, x) && x.states[0] == s && x.events != []
    ensures Announces(x, |x.events| - 1)
    ensures SeenAs(Last(x).live, Peer(t), Primary) && SeenAs(Last(x).view, Peer(t), Primary)
    ensures r.kind == ByPlacement ==> KeepsRetained(Last(x).decisions, Peer(t))
  {
    var first := PromoteAndLoseStatus(r, t, s);
    var second := StaleStatusCompletes(r, t, Last(first));
    if r.kind == ByPlacement { PlaceEffect(Last(first).decisions, Decision(t, Named(t)), Peer(t)); }
    x := Join(r, first, second);
    AnnouncedAtEnd(first, second, x);
  }
}
