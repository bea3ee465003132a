/** What must have come before each stage of a failover, over every execution: the promotion of
    the target, the demotion of the old home, and the loss of the old home's placement. */
module FailoverHistory {
  import opened Options
  import opened DRTypes
  import opened PlacementDecisions
  import opened Protocol
  import opened RelocateSafety
  import opened FailoverSafety
  import MM = MaintenanceModes
  import GC = GlobalConsensus

  // ---------------------------------------------------------------------------
  // Events of the past
  // ---------------------------------------------------------------------------

  /** A reconcile finds every guard of the failover met: the target reported Secondary for its
      generation, the group agrees, and the cluster that holds the active decision is fenced, or
      the maintenance modes are active. */
  ghost predicate GuardsMet(s: State, t: Cluster) {
    && s.hub.Busy? && Home(s.hub.ctx.kind, s.decisions) == Some(Peer(t))
    && SawTargetSettled(s.hub.ctx, t) && SawAgreement(s.hub.ctx.env)
    && if s.hub.ctx.env.sync then SawFence(s.hub.ctx.env, Peer(t)) else SawModes(s.hub.ctx, t)
  }

  predicate SawTargetSettled(x: Ctx, t: Cluster) {
    t in x.views && x.views[t].status.state == AsSecondary && x.views[t].status.observed == x.views[t].generation
  }

  ghost predicate SawAgreement(env: Env) {
    env.group.Group? ==> env.group.listed.Some? && GC.InConsensus(env.group.self, env.group.listed.value)
  }

  predicate SawFence(env: Env, c: Cluster) {
    c in env.drClusters && env.drClusters[c].fenced == Condition(true, env.drClusters[c].generation)
  }

  /** Whatever is known of the volumes, from a primary in view on the other cluster or else from the object
      store: every maintenance mode they ask for is on at the target. */
  ghost predicate SawModes(x: Ctx, t: Cluster) {
    var o := Peer(t);
    && (t in x.env.drClusters && o in x.views && x.views[o].spec.role == Primary ==>
          MM.ModesOn(x.env.drClusters[t].modes, x.views[o].status.pvcs))
    && (t in x.env.drClusters && !(o in x.views && x.views[o].spec.role == Primary) && x.env.archived.Some? ==>
          MM.ModesOn(x.env.drClusters[t].modes, x.env.archived.value))
  }

  /** The guards of the table, in terms of what was read. */
  lemma GuardsRead(s: State, t: Cluster)
    requires s.hub.Busy? && Home(s.hub.ctx.kind, s.decisions) == Some(Peer(t))
    requires ValidTarget(s.hub.ctx, t) && Consensus(s.hub.ctx.env) && Prerequisites(s.hub.ctx, t, Peer(t))
    ensures GuardsMet(s, t)
  {
  }

  ghost predicate OnceGuarded(x: Execution, t: Cluster, k: nat) {
    exists j: nat :: j <= k && j < |x.states| && GuardsMet(x.states[j], t)
  }

  /** Step `i` promotes the target, after the guards were met. */
  ghost predicate PromotedAt(x: Execution, t: Cluster, i: nat) {
    && i < |x.events| && i < |x.states| && x.events[i] == Write(Promote(t))
    && OnceGuarded(x, t, i)
    && var s := x.states[i]; s.hub.Busy? && SawTargetSettled(s.hub.ctx, t) && SawAgreement(s.hub.ctx.env)
  }

  ghost predicate OncePromoted(x: Execution, t: Cluster, k: nat) {
    exists i: nat :: i < k && PromotedAt(x, t, i)
  }

  /** The target's MW is Primary and its view reports it Primary and ready. */
  predicate TargetArrived(s: State, t: Cluster) {
    && WorkIs(s.mw, t, Primary) && SeenAs(s.view, t, Primary) && s.view[t].status.state == AsPrimary
    && s.view[t].status.dataReady == Condition(true, s.view[t].generation)
    && s.view[t].status.clusterDataReady == Condition(true, s.view[t].generation)
  }

  ghost predicate OnceArrived(x: Execution, t: Cluster, k: nat) {
    exists j: nat :: j <= k && j < |x.states| && TargetArrived(x.states[j], t)
  }

  /** Step `i` drops the decision of `o`, which is Secondary in its MW and seen Secondary with its
      current generation observed. */
  predicate ReleasedAt(x: Execution, o: Cluster, i: nat) {
    && i < |x.events| && i < |x.states| && x.events[i] == Write(DropPlacement(o))
    && var s := x.states[i];
       && s.hub.Busy? && WorkIs(s.mw, o, Secondary) && SeenAs(s.hub.ctx.views, o, Secondary)
       && s.hub.ctx.views[o].status.observed == s.hub.ctx.views[o].generation
  }

  ghost predicate OnceReleased(x: Execution, o: Cluster, k: nat) {
    exists i: nat :: i < k && ReleasedAt(x, o, i)
  }

  lemma OnceStays(x: Execution, t: Cluster, j: nat, k: nat)
    requires j <= k < |x.states|
    ensures OnceGuarded(x, t, j) ==> OnceGuarded(x, t, k)
    ensures OncePromoted(x, t, j) ==> OncePromoted(x, t, k)
    ensures OnceArrived(x, t, j) ==> OnceArrived(x, t, k)
    ensures OnceReleased(x, Peer(t), j) ==> OnceReleased(x, Peer(t), k)
  {
  }

  // ---------------------------------------------------------------------------
  // The invariant
  // ---------------------------------------------------------------------------

  ghost predicate HistoryInv(r: Run, t: Cluster, x: Execution, k: nat)
    requires k < |x.states|
  {
    var o, s := Peer(t), x.states[k];
    && PlacementInv(r, t, s)
    && (SeenAs(Working(s), t, Primary) && Ready(Working(s)[t]) ==> OnceArrived(x, t, k))
    && (WorkIs(s.mw, o, Secondary) ==> OnceArrived(x, t, k))
    && (WorkIs(s.mw, t, Primary) ==> OncePromoted(x, t, k))
    && (Home(r.kind, s.decisions) != Some(o) ==> OnceGuarded(x, t, k))
    && (r.kind == ByPlacement ==> Keeps(s.decisions, o) || OnceReleased(x, o, k))
    && (r.kind == ByPlacement && WorkIs(s.mw, t, Primary) ==> KeepsRetained(s.decisions, o) || OnceReleased(x, o, k))
  }

  /** What holds of step `k`. */
  ghost predicate StepOk(r: Run, t: Cluster, x: Execution, k: nat) {
    && IsFailover(r, t) && k < |x.events| && |x.states| == |x.events| + 1
    && x.states[k + 1] == Next(r, x.states[k], x.events[k]) && Enabled(r, x.states[k], x.events[k])
    && PromotionInv(r, t, x.states[k]) && PromotionInv(r, t, x.states[k + 1])
  }

  lemma StepAt(r: Run, t: Cluster, x: Execution, k: nat)
    requires FailoverRun(r, t, x) && k + 1 < |x.states|
    ensures StepOk(r, t, x, k)
  {
    PromotionAlways(r, t, x, k);
    PromotionAlways(r, t, x, k + 1);
    assert StepOf(r, x, k);
  }

  /** A promotion comes after the guards, whichever reconcile checked them. */
  lemma PromotionIsGuarded(r: Run, t: Cluster, x: Execution, k: nat)
    requires IsFailover(r, t) && k < |x.events| && k < |x.states| && x.events[k] == Write(Promote(t))
    requires Enabled(r, x.states[k], Write(Promote(t))) && PromotionInv(r, t, x.states[k]) && HistoryInv(r, t, x, k)
    ensures PromotedAt(x, t, k)
    ensures r.kind == ByPlacement ==> KeepsRetained(x.states[k].decisions, Peer(t)) || OnceReleased(x, Peer(t), k)
  {
    var s, o := x.states[k], Peer(t);
    if Home(r.kind, s.decisions) == Some(o) {
      GuardsRead(s, t);
    }
    if r.kind == ByPlacement && Keeps(s.decisions, o) {
      KeptWithoutHome(s.decisions, o);
    }
  }

  /** The past that a write adds. */
  ghost predicate Remembered(r: Run, t: Cluster, x: Execution, k: nat, a: Act)
    requires k < |x.states|
  {
    var o, s := Peer(t), x.states[k];
    && (a == Promote(t) ==> OncePromoted(x, t, k + 1))
    && (a == Promote(t) && r.kind == ByPlacement ==> KeepsRetained(s.decisions, o) || OnceReleased(x, o, k))
    && (a == RetainPlacement(o) ==> OnceGuarded(x, t, k))
    && (a == DropPlacement(o) ==> OnceReleased(x, o, k + 1))
  }

  /** The writes that make history. */
  lemma Milestones(r: Run, t: Cluster, x: Execution, k: nat)
    requires StepOk(r, t, x, k) && x.events[k].Write? && HistoryInv(r, t, x, k)
    ensures Remembered(r, t, x, k, x.events[k].act)
  {
    var o, s := Peer(t), x.states[k];
    match x.events[k].act {
      case Promote(c) =>
        if c == t {
          PromotionIsGuarded(r, t, x, k);
        }
      case RetainPlacement(c) =>
        if c == o && Home(r.kind, s.decisions) == Some(o) { GuardsRead(s, t); }
      case DropPlacement(c) =>
        if c == o { assert ReleasedAt(x, o, k); }
      case _ =>
    }
  }

  /** What a write changes, as far as history is concerned. */
  ghost predicate Turned(r: Run, t: Cluster, s: State, n: State, a: Act) {
    var o := Peer(t);
    && PlacementInv(r, t, n) && Working(n) == Working(s)
    && (WorkIs(n.mw, t, Primary) ==> WorkIs(s.mw, t, Primary) || a == Promote(t))
    && (WorkIs(n.mw, o, Secondary) ==>
          WorkIs(s.mw, o, Secondary) || (SeenAs(Working(s), t, Primary) && Ready(Working(s)[t])))
    && (Home(r.kind, n.decisions) != Some(o) ==>
          Home(r.kind, s.decisions) != Some(o) || a == RetainPlacement(o) || WorkIs(s.mw, t, Primary))
    && (r.kind == ByPlacement && Keeps(s.decisions, o) && !Keeps(n.decisions, o) ==>
          a == DropPlacement(o) || (WorkIs(s.mw, t, Primary) && !KeepsRetained(s.decisions, o)))
    && (r.kind == ByPlacement && KeepsRetained(s.decisions, o) && !KeepsRetained(n.decisions, o) ==>
          a == DropPlacement(o))
  }

  lemma WriteTurns(r: Run, t: Cluster, s: State, a: Act)
    requires IsFailover(r, t) && PromotionInv(r, t, s) && PlacementInv(r, t, s) && Enabled(r, s, Write(a))
    ensures Turned(r, t, s, Next(r, s, Write(a)), a)
  {
    WriteRoles(r, t, s, a);
    WriteDecisions(r, t, s, a);
  }

  lemma TurnedKeepsHistory(r: Run, t: Cluster, x: Execution, k: nat, a: Act)
    requires k + 1 < |x.states| && HistoryInv(r, t, x, k)
    requires Turned(r, t, x.states[k], x.states[k + 1], a) && Remembered(r, t, x, k, a)
    ensures HistoryInv(r, t, x, k + 1)
  {
    OnceStays(x, t, k, k + 1);
    OncePromotedWasGuarded(x, t, k);
  }

  lemma OncePromotedWasGuarded(x: Execution, t: Cluster, k: nat)
    requires k < |x.states|
    ensures OncePromoted(x, t, k) ==> OnceGuarded(x, t, k)
  {
    if i: nat :| i < k && PromotedAt(x, t, i) { OnceStays(x, t, i, k); }
  }

  lemma WriteKeepsHistory(r: Run, t: Cluster, x: Execution, k: nat)
    requires StepOk(r, t, x, k) && x.events[k].Write? && HistoryInv(r, t, x, k)
    ensures HistoryInv(r, t, x, k + 1)
  {
    var a := x.events[k].act;
    WriteTurns(r, t, x.states[k], a);
    Milestones(r, t, x, k);
    TurnedKeepsHistory(r, t, x, k, a);
  }

  lemma ArrivalSeen(r: Run, t: Cluster, x: Execution, k: nat)
    requires k < |x.states| && PromotionInv(r, t, x.states[k])
    requires SeenAs(x.states[k].view, t, Primary) && Ready(x.states[k].view[t])
    ensures OnceArrived(x, t, k)
  {
    assert TargetArrived(x.states[k], t);
  }

  /** A snapshot that shows an arrival was taken from such a view. */
  lemma LookArrives(r: Run, t: Cluster, x: Execution, k: nat)
    requires k + 1 < |x.states| && HistoryInv(r, t, x, k) && PromotionInv(r, t, x.states[k + 1])
    requires
      var w, s := Working(x.states[k + 1]), x.states[k];
      t in w ==> (t in x.states[k + 1].view && w[t] == x.states[k + 1].view[t]) || (t in Working(s) && w[t] == Working(s)[t])
    ensures
      var w := Working(x.states[k + 1]);
      SeenAs(w, t, Primary) && Ready(w[t]) ==> OnceArrived(x, t, k + 1)
  {
    var w, n := Working(x.states[k + 1]), x.states[k + 1];
    if SeenAs(w, t, Primary) && Ready(w[t]) {
      if t in n.view && w[t] == n.view[t] {
        ArrivalSeen(r, t, x, k + 1);
      } else {
        OnceStays(x, t, k, k + 1);
      }
    }
  }

  lemma LookKeepsHistory(r: Run, t: Cluster, x: Execution, k: nat)
    requires k + 1 < |x.states| && HistoryInv(r, t, x, k) && PromotionInv(r, t, x.states[k + 1])
    requires x.states[k + 1].mw == x.states[k].mw && x.states[k + 1].decisions == x.states[k].decisions
    requires
      var w, s := Working(x.states[k + 1]), x.states[k];
      t in w ==> (t in x.states[k + 1].view && w[t] == x.states[k + 1].view[t]) || (t in Working(s) && w[t] == Working(s)[t])
    ensures HistoryInv(r, t, x, k + 1)
  {
    OnceStays(x, t, k, k + 1);
    LookArrives(r, t, x, k);
  }

  lemma SettledHistory(r: Run, t: Cluster, x: Execution)
    requires FailoverRun(r, t, x)
    ensures HistoryInv(r, t, x, 0)
  {
    HomeOfOne(r.kind, x.states[0].decisions);
    assert x.states[0].decisions[0].cluster == Peer(t);
  }

  lemma HistoryAfter(r: Run, t: Cluster, x: Execution, k: nat)
    requires FailoverRun(r, t, x) && k + 1 < |x.states| && HistoryInv(r, t, x, k)
    ensures HistoryInv(r, t, x, k + 1)
  {
    StepAt(r, t, x, k);
    if x.events[k].Write? {
      WriteKeepsHistory(r, t, x, k);
    } else {
      LookFacts(r, x.states[k], x.events[k], t);
      LookKeepsHistory(r, t, x, k);
    }
  }

  lemma {:induction false} HistoryAlways(r: Run, t: Cluster, x: Execution, k: nat)
    requires FailoverRun(r, t, x) && k < |x.states|
    ensures HistoryInv(r, t, x, k)
  {
    if k == 0 {
      SettledHistory(r, t, x);
    } else {
      HistoryAlways(r, t, x, k - 1);
      HistoryAfter(r, t, x, k - 1);
    }
  }

  // ---------------------------------------------------------------------------
  // The theorems
  // ---------------------------------------------------------------------------

  /** A failover promotion is always guarded. */
  lemma PromotionAlwaysGuarded(r: Run, t: Cluster, x: Execution, k: nat)
    requires FailoverRun(r, t, x) && k < |x.states|
    requires WorkIs(x.states[k].mw, t, Primary) || SeenAs(x.states[k].live, t, Primary)
    ensures OncePromoted(x, t, k)
  {
    HistoryAlways(r, t, x, k);
    PromotionAlways(r, t, x, k);
  }

  /** The old home is demoted only after the target was seen Primary and ready. */
  lemma DemotionAfterArrival(r: Run, t: Cluster, x: Execution, k: nat)
    requires FailoverRun(r, t, x) && k < |x.states| && WorkIs(x.states[k].mw, Peer(t), Secondary)
    ensures OnceArrived(x, t, k) && OncePromoted(x, t, k)
  {
    HistoryAlways(r, t, x, k);
    PromotionAlways(r, t, x, k);
  }

  /** The old home's decision survives the failover, active or retained, until a reconcile finds
      the old home Secondary in its MW and seen Secondary with its current generation observed. */
  lemma OldPlacementSurvives(r: Run, t: Cluster, x: Execution, k: nat)
    requires FailoverRun(r, t, x) && k < |x.states| && r.kind == ByPlacement
    ensures Keeps(x.states[k].decisions, Peer(t)) || OnceReleased(x, Peer(t), k)
    ensures OnceReleased(x, Peer(t), k) ==> OnceArrived(x, t, k) && OncePromoted(x, t, k)
  {
    HistoryAlways(r, t, x, k);
    if i: nat :| i < k && ReleasedAt(x, Peer(t), i) {
      DemotionAfterArrival(r, t, x, i);
      OnceStays(x, t, i, k);
    }
  }

  /** What a reconcile works from was once true of the cluster: every VRG of its snapshot is a
      state the VRG really was in, at or before that point. */
  ghost predicate WasLive(x: Execution, c: Cluster, v: VRG, k: nat) {
    exists j: nat :: j <= k && j < |x.states| && c in x.states[j].live && x.states[j].live[c] == v
  }

  lemma {:induction false} SnapshotsWereLive(r: Run, x: Execution, c: Cluster, k: nat)
    requires IsExecution(r, x) && k < |x.states| && x.states[0].hub.Idle? && x.states[0].view == x.states[0].live
    ensures c in x.states[k].view ==> WasLive(x, c, x.states[k].view[c], k)
    ensures c in Working(x.states[k]) ==> WasLive(x, c, Working(x.states[k])[c], k)
  {
    if k > 0 {
      SnapshotsWereLive(r, x, c, k - 1);
      assert StepOf(r, x, k - 1);
      LookFacts(r, x.states[k - 1], x.events[k - 1], c);
    }
  }
}
