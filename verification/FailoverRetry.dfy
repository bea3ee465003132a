/** A failover whose promotion fails after the old home's decision was retained.  The next reconcile finds
    no active decision, takes the preferred cluster on record as the one to fail away from, and under a
    metro policy asks for that one to be fenced. */
module FailoverRetry {
  import opened Options
  import opened DRTypes
  import opened PlacementDecisions
  import opened Protocol
  import opened Executions
  import opened RelocateSafety
  import opened FailoverSafety

  /** The retry fails away from the same cluster exactly if the preferred cluster on record is that
      cluster, or is unknown while the old home's DRCluster is known. */
  lemma RetryHome(spec: DRPCSpec, env: Env, t: Cluster, l: Decisions, preferred: Option<Cluster>)
    requires spec.failoverCluster == Some(t) && Home(ByPlacement, l) == Some(Peer(t)) && AtMostOneActive(l)
    ensures
      var o := Peer(t);
      var retained := WritePlacement(ByPlacement, l, RetainPlacement(o));
      && CurrentHome(spec, ByPlacement, env, l, preferred) == Some(o)
      && (CurrentHome(spec, ByPlacement, env, retained, preferred) == Some(o) <==>
            preferred == Some(o) || (preferred == None && o in env.drClusters))
  {
    RetainEffect(l, Peer(t), Peer(t));
  }

  // ---------------------------------------------------------------------------
  // The stuck state
  // ---------------------------------------------------------------------------

  /** Retained but not promoted, with the target itself as the preferred cluster on record. */
  ghost predicate Stuck(r: Run, t: Cluster, s: State) {
    && IsFailover(r, t) && r.kind == ByPlacement && PromotionInv(r, t, s) && AtMostOneActive(s.decisions)
    && !WorkIs(s.mw, t, Primary) && Home(ByPlacement, s.decisions) == None
    && s.status.preferred == Some(t)
    && (s.hub.Busy? ==> s.hub.work.preferred == Some(t) && s.hub.ctx.home == Some(t))
  }

  /** A metro environment in which the target is not fenced. */
  predicate Unfenced(e: Event, t: Cluster) { e.Begin? ==> e.env.sync && !Fenced(e.env, t) }

  /** A metro environment. */
  predicate Metro(e: Event) { e.Begin? ==> e.env.sync }

  /** While stuck, the only writes left are to the status, unless the target itself is fenced. */
  lemma StuckWrites(r: Run, t: Cluster, s: State, a: Act)
    requires Stuck(r, t, s) && Enabled(r, s, Write(a)) && s.hub.ctx.env.sync && !Fenced(s.hub.ctx.env, t)
    ensures a.SetStatus?
  {
  }

  /** A stuck failover leaves its state only by a promotion. */
  lemma StepKeepsStuck(r: Run, t: Cluster, s: State, e: Event)
    requires Stuck(r, t, s) && Enabled(r, s, e) && e != Write(Promote(t))
    ensures Stuck(r, t, Next(r, s, e))
  {
    StepKeepsPromotionInv(r, t, s, e);
    if e.Write? {
      WriteRoles(r, t, s, e.act);
      match e.act {
        case RetainPlacement(c) => RetainEffect(s.decisions, c, c);
        case _ =>
      }
    } else {
      LookFacts(r, s, e, t);
    }
  }

  /** Step `i` promotes the target in a reconcile that found the target itself fenced. */
  predicate PromotedFenced(x: Execution, t: Cluster, i: nat) {
    && i < |x.events| && i < |x.states| && x.events[i] == Write(Promote(t))
    && x.states[i].hub.Busy? && Fenced(x.states[i].hub.ctx.env, t)
  }

  ghost predicate AllMetro(x: Execution) { forall i | 0 <= i < |x.events| :: Metro(x.events[i]) }

  /** Every reconcile under way is of a metro policy. */
  predicate MetroNow(s: State) { s.hub.Busy? ==> s.hub.ctx.env.sync }

  lemma StuckAfter(r: Run, t: Cluster, x: Execution, k: nat)
    requires IsExecution(r, x) && k + 1 < |x.states| && Stuck(r, t, x.states[k]) && MetroNow(x.states[k]) && Metro(x.events[k])
    ensures MetroNow(x.states[k + 1])
    ensures Stuck(r, t, x.states[k + 1]) || PromotedFenced(x, t, k)
  {
    assert StepOf(r, x, k);
    if x.events[k] != Write(Promote(t)) { StepKeepsStuck(r, t, x.states[k], x.events[k]); }
  }

  /** Over every continuation under a metro policy: the target is not promoted before a reconcile that
      finds the target itself fenced. */
  lemma {:induction false} RetryWaitsForTargetFence(r: Run, t: Cluster, x: Execution, k: nat)
    requires IsExecution(r, x) && Stuck(r, t, x.states[0]) && x.states[0].hub.Idle? && AllMetro(x) && k < |x.states|
    ensures (Stuck(r, t, x.states[k]) && MetroNow(x.states[k])) || exists i: nat :: i < k && PromotedFenced(x, t, i)
  {
    if k > 0 {
      RetryWaitsForTargetFence(r, t, x, k - 1);
      if Stuck(r, t, x.states[k - 1]) && MetroNow(x.states[k - 1]) {
        assert Metro(x.events[k - 1]);
        StuckAfter(r, t, x, k - 1);
      }
    }
  }

  lemma UnfencedStep(r: Run, t: Cluster, x: Execution, k: nat)
    requires IsExecution(r, x) && k + 1 < |x.states| && Stuck(r, t, x.states[k])
    requires x.states[k].hub.Busy? ==> x.states[k].hub.ctx.env.sync && !Fenced(x.states[k].hub.ctx.env, t)
    requires Unfenced(x.events[k], t)
    ensures Stuck(r, t, x.states[k + 1]) && x.states[k + 1].mw == x.states[k].mw
    ensures x.states[k + 1].decisions == x.states[k].decisions
    ensures x.states[k + 1].hub.Busy? ==> x.states[k + 1].hub.ctx.env.sync && !Fenced(x.states[k + 1].hub.ctx.env, t)
  {
    assert StepOf(r, x, k);
    var e := x.events[k];
    if e.Write? { StuckWrites(r, t, x.states[k], e.act); }
    StepKeepsStuck(r, t, x.states[k], e);
  }

  /** As long as the target is not fenced the failover is stuck: no reconcile, however many run and
      whatever else they find, changes an MW or the placement. */
  lemma {:induction false} StuckWhileUnfenced(r: Run, t: Cluster, x: Execution, k: nat)
    requires IsExecution(r, x) && Stuck(r, t, x.states[0]) && x.states[0].hub.Idle? && k < |x.states|
    requires forall i | 0 <= i < |x.events| :: Unfenced(x.events[i], t)
    ensures x.states[k].mw == x.states[0].mw && x.states[k].decisions == x.states[0].decisions
    ensures Stuck(r, t, x.states[k])
    ensures x.states[k].hub.Busy? ==> x.states[k].hub.ctx.env.sync && !Fenced(x.states[k].hub.ctx.env, t)
  {
    if k > 0 {
      StuckWhileUnfenced(r, t, x, k - 1);
      assert Unfenced(x.events[k - 1], t);
      UnfencedStep(r, t, x, k - 1);
    }
  }

  // ---------------------------------------------------------------------------
  // How it is reached
  // ---------------------------------------------------------------------------

  /** A metro policy under which the old home is fenced. */
  function OldHomeFenced(t: Cluster): Env {
    QuietEnv().(sync := true, drClusters := map[Peer(t) := DRClusterView(1, Condition(true, 1), [])])
  }

  /** What the reconcile finds: a settled target, and the old home as the fenced cluster to fail away from. */
  ghost predicate OpenTo(x: Ctx, t: Cluster) {
    && x.spec.action == Failover && x.spec.failoverCluster == Some(t) && x.kind == ByPlacement && x.home == Some(Peer(t))
    && ValidTarget(x, t) && !SeenAs(x.views, t, Primary) && Consensus(x.env) && Prerequisites(x, t, Peer(t))
  }

  lemma RestIsOpen(r: Run, t: Cluster, s: State)
    requires IsFailover(r, t) && r.kind == ByPlacement && Settled(r, Peer(t), s)
    requires t in s.live && SettledSecondary(s.live[t])
    ensures OpenTo(CtxOf(r, s, OldHomeFenced(t)), t)
  {
    HomeOfOne(r.kind, s.decisions);
    var x := CtxOf(r, s, OldHomeFenced(t));
    assert t in x.views && x.views[t] == s.live[t];
  }

  /** The writes the reconcile makes: PeerReady is withdrawn and the decision retained. */
  lemma RetainsOnly(r: Run, t: Cluster, s: State) returns (x: Execution)
    requires s.hub.Idle? && OpenTo(CtxOf(r, s, OldHomeFenced(t)), t) && r.kind == ByPlacement
    requires AtMostOneActive(s.decisions) && Home(ByPlacement, s.decisions) == Some(Peer(t))
    ensures IsExecution(r, x) && x.states[0] == s
    ensures Last(x) == s.(decisions := Step(s.decisions, Retain(Peer(t))), status := Last(x).status)
    ensures Last(x).status.preferred == s.status.preferred
  {
    var withdrawn := s.status.(phase := FailingOver, progression := FailingOverToCluster, peerReady := PeerReady(false, false, true));
    var c, a, b := CtxOf(r, s, OldHomeFenced(t)), SetStatus(withdrawn), RetainPlacement(Peer(t));
    TwoWrites(c, StoreOf(s), a, b);
    x := ReconcileIsExecution(r, s, OldHomeFenced(t), [a, b], true);
  }

  /** From every settled start whose preferred cluster on record is the target: the old home is fenced, its
      decision is retained, the write of the promotion fails, and the reconcile ends. */
  lemma ReachesStuck(r: Run, t: Cluster, s: State) returns (x: Execution)
    requires IsFailover(r, t) && r.kind == ByPlacement && Settled(r, Peer(t), s) && s.status.preferred == Some(t)
    requires t in s.live && SettledSecondary(s.live[t])
    ensures FailoverRun(r, t, x) && x.states[0] == s && Last(x).hub.Idle? && Stuck(r, t, Last(x))
  {
    RestIsOpen(r, t, s);
    HomeOfOne(r.kind, s.decisions);
    RetainEffect(s.decisions, Peer(t), Peer(t));
    x := RetainsOnly(r, t, s);
    PromotionAlways(r, t, x, |x.events|);
  }
}
