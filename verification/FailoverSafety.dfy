/** Safety of failover, over every execution: any interleaving of the hub's writes with agents,
    VRG controllers and views, any failing or interrupted reconcile, any lost status. */
module FailoverSafety {
  import opened Options
  import opened DRTypes
  import opened PlacementDecisions
  import opened Protocol
  import opened RelocateSafety

  predicate IsFailover(r: Run, t: Cluster) {
    r.spec.action == Failover && r.spec.failoverCluster == Some(t)
  }

  /** An execution of a failover to `t` that starts at rest on the other cluster. */
  ghost predicate FailoverRun(r: Run, t: Cluster, x: Execution) {
    IsFailover(r, t) && IsExecution(r, x) && Settled(r, Peer(t), x.states[0])
  }

  // ---------------------------------------------------------------------------
  // Roles and placement
  // ---------------------------------------------------------------------------

  /** The promotion of the target spreads from its MW to the VRG, the view and the snapshot. */
  ghost predicate PromotionInv(r: Run, t: Cluster, s: State) {
    && (s.hub.Busy? ==> s.hub.ctx.spec == r.spec && s.hub.ctx.kind == r.kind)
    && HonestViews(s.live) && HonestViews(s.view) && HonestViews(Working(s))
    && Peer(t) in s.mw
    && (WorkIs(s.mw, Peer(t), Primary) || WorkIs(s.mw, t, Primary))
    && (SeenAs(Working(s), t, Primary) ==> SeenAs(s.view, t, Primary))
    && (SeenAs(s.view, t, Primary) ==> SeenAs(s.live, t, Primary))
    && (SeenAs(s.live, t, Primary) ==> WorkIs(s.mw, t, Primary))
  }

  /** What a write of the hub does to the two MWs. */
  lemma WriteRoles(r: Run, t: Cluster, s: State, a: Act)
    requires IsFailover(r, t) && PromotionInv(r, t, s) && Enabled(r, s, Write(a))
    ensures
      var o, n := Peer(t), Next(r, s, Write(a));
      && n.live == s.live && n.view == s.view && Working(n) == Working(s)
      && n.hub.Busy? && n.hub.ctx == s.hub.ctx && n.status == s.status
      && o in n.mw
      && (WorkIs(s.mw, t, Primary) ==> WorkIs(n.mw, t, Primary))
      && (WorkIs(n.mw, t, Primary) ==> WorkIs(s.mw, t, Primary) || a == Promote(t))
      && (WorkIs(n.mw, o, Primary) ==> WorkIs(s.mw, o, Primary))
      && (WorkIs(n.mw, o, Secondary) ==>
            WorkIs(s.mw, o, Secondary) || (WorkIs(s.mw, t, Primary) && Arrived(s.hub.ctx, t)))
  {
    var n := Next(r, s, Write(a));
    assert a.SetStatus? || n.mw == WriteWork(s.hub.ctx, s.mw, a);
    if !a.SetStatus? {
      RolesAfter(s.hub.ctx, s.mw, a, t);
      RolesAfter(s.hub.ctx, s.mw, a, Peer(t));
    }
  }

  lemma OthersKeepPromotionInv(r: Run, t: Cluster, s: State, e: Event)
    requires PromotionInv(r, t, s) && Enabled(r, s, e) && (e.Apply? || e.Report? || e.Refresh?)
    ensures PromotionInv(r, t, Next(r, s, e))
  {
    match e {
      case Apply(c) => AppliedFacts(s.live, c, s.mw[c]);
      case _ =>
    }
  }

  lemma StepKeepsPromotionInv(r: Run, t: Cluster, s: State, e: Event)
    requires IsFailover(r, t) && PromotionInv(r, t, s) && Enabled(r, s, e)
    ensures PromotionInv(r, t, Next(r, s, e))
  {
    match e {
      case Write(a) => WriteRoles(r, t, s, a);
      case Begin(env) =>
        assert forall c | c in Snapshot(s.view, env.reachable) :: Snapshot(s.view, env.reachable)[c] == s.view[c];
      case Stop(_) =>
      case _ => OthersKeepPromotionInv(r, t, s, e);
    }
  }

  lemma {:induction false} PromotionAlways(r: Run, t: Cluster, x: Execution, k: nat)
    requires FailoverRun(r, t, x) && k < |x.states|
    ensures PromotionInv(r, t, x.states[k])
  {
    if k > 0 {
      PromotionAlways(r, t, x, k - 1);
      assert StepOf(r, x, k - 1);
      StepKeepsPromotionInv(r, t, x.states[k - 1], x.events[k - 1]);
    }
  }

  /** The old home is never promoted, and the target never demoted. */
  lemma RolesMoveOneWay(r: Run, t: Cluster, s: State, e: Event)
    requires IsFailover(r, t) && PromotionInv(r, t, s) && Enabled(r, s, e)
    ensures WorkIs(Next(r, s, e).mw, Peer(t), Primary) ==> WorkIs(s.mw, Peer(t), Primary)
    ensures WorkIs(s.mw, t, Primary) ==> WorkIs(Next(r, s, e).mw, t, Primary)
  {
    if e.Write? { WriteRoles(r, t, s, e.act); } else { LookFacts(r, s, e, t); }
  }

  lemma OneWayAt(r: Run, t: Cluster, x: Execution, k: nat)
    requires FailoverRun(r, t, x) && k + 1 < |x.states|
    ensures WorkIs(x.states[k + 1].mw, Peer(t), Primary) ==> WorkIs(x.states[k].mw, Peer(t), Primary)
    ensures WorkIs(x.states[k].mw, t, Primary) ==> WorkIs(x.states[k + 1].mw, t, Primary)
  {
    PromotionAlways(r, t, x, k);
    assert StepOf(r, x, k);
    RolesMoveOneWay(r, t, x.states[k], x.events[k]);
  }

  /** A failover never has zero primaries, never promotes the old home, and never takes the
      promotion of its target back. */
  lemma NeverZeroPrimaries(r: Run, t: Cluster, x: Execution, k: nat)
    requires FailoverRun(r, t, x) && k < |x.states|
    ensures
      var s := x.states[k];
      && (WorkIs(s.mw, DR1, Primary) || WorkIs(s.mw, DR2, Primary))
      && (k > 0 && WorkIs(s.mw, Peer(t), Primary) ==> WorkIs(x.states[k - 1].mw, Peer(t), Primary))
      && (k > 0 && WorkIs(x.states[k - 1].mw, t, Primary) ==> WorkIs(s.mw, t, Primary))
  {
    PromotionAlways(r, t, x, k);
    if k > 0 { OneWayAt(r, t, x, k - 1); }
  }

  /** The placement names the old home until the failover is under way, and the target only after
      its promotion. */
  ghost predicate PlacementInv(r: Run, t: Cluster, s: State) {
    var h := Home(r.kind, s.decisions);
    && (r.kind == ByPlacement ==> AtMostOneActive(s.decisions))
    && (r.kind == ByPlacement && h == Some(Peer(t)) ==> !WorkIs(s.mw, t, Primary))
    && (r.kind == ByPlacementRule ==> h != None)
    && (h == Some(t) ==> WorkIs(s.mw, t, Primary))
  }

  predicate Keeps(l: Decisions, c: Cluster) { exists i :: 0 <= i < |l| && l[i].cluster == c }

  predicate KeepsRetained(l: Decisions, c: Cluster) { Decision(c, Retained) in l }

  lemma RetainEffect(l: Decisions, c: Cluster, o: Cluster)
    requires AtMostOneActive(l)
    ensures
      var n := Step(l, Retain(c));
      && AtMostOneActive(n)
      && (Keeps(l, o) ==> Keeps(n, o)) && (KeepsRetained(l, o) ==> KeepsRetained(n, o))
      && (Home(ByPlacement, l) == None || Home(ByPlacement, l) == Some(c) ==> Home(ByPlacement, n) == None)
  {
    StepKeepsOneActive(l, Retain(c));
    RetainedAreRetained(l);
    if l == [] {
      assert [Decision(c, Retained)][..0] == [];
    } else {
      var n := RetainFirst(l, c);
      RetainFirstFacts(l, c);
      RetainFirstCount(l, c);
      if Keeps(l, o) {
        var i :| 0 <= i < |l| && l[i].cluster == o;
        assert n[i].cluster == o;
      }
      if KeepsRetained(l, o) {
        var i :| 0 <= i < |l| && l[i] == Decision(o, Retained);
        assert n[i] == l[i];
      }
      if Home(ByPlacement, l) == Some(c) {
        assert ActiveOf(l)[0] in ActiveOf(l);
        var i :| 0 <= i < |l| && l[i] == ActiveOf(l)[0];
        assert l[i].cluster == c && IsActive(l[i]);
      } else if Home(ByPlacement, l) == None {
        assert ActiveOf(l) == [];
      }
    }
  }

  lemma PlaceEffect(l: Decisions, d: Decision<Cluster>, o: Cluster)
    requires AtMostOneActive(l) && IsActive(d)
    ensures
      var n := Step(l, Update(Some(d)));
      && AtMostOneActive(n) && Home(ByPlacement, n) == Some(d.cluster)
      && (KeepsRetained(l, o) ==> KeepsRetained(n, o))
  {
    UpdateKeepsRetained(l, Some(d));
    RetainedAreRetained(l);
  }

  lemma DropEffect(l: Decisions, c: Cluster, o: Cluster)
    requires AtMostOneActive(l)
    ensures
      var n := Step(l, Drop(c));
      && AtMostOneActive(n) && Home(ByPlacement, n) == Home(ByPlacement, l)
      && (c != o && Keeps(l, o) ==> Keeps(n, o)) && (c != o && KeepsRetained(l, o) ==> KeepsRetained(n, o))
  {
    WithoutFacts(l, c);
    if c != o && Keeps(l, o) {
      var i :| 0 <= i < |l| && l[i].cluster == o;
      assert l[i] in Without(l, c);
      var j :| 0 <= j < |Without(l, c)| && Without(l, c)[j] == l[i];
    }
  }

  /** An entry that is in the list while no entry is active is a retained one. */
  lemma KeptWithoutHome(l: Decisions, o: Cluster)
    requires AtMostOneActive(l) && Home(ByPlacement, l) == None && Keeps(l, o)
    ensures KeepsRetained(l, o)
  {
    RetainedAreRetained(l);
    assert ActiveOf(l) == [];
    var i :| 0 <= i < |l| && l[i].cluster == o;
    assert l[i] in l && l[i] !in ActiveOf(l);
    assert l[i] == Decision(o, Retained);
  }

  /** What a write of the hub does to the placement. */
  lemma WriteDecisions(r: Run, t: Cluster, s: State, a: Act)
    requires IsFailover(r, t) && PromotionInv(r, t, s) && PlacementInv(r, t, s) && Enabled(r, s, Write(a))
    ensures
      var o, n := Peer(t), Next(r, s, Write(a));
      && PlacementInv(r, t, n)
      && (Home(r.kind, n.decisions) != Some(o) ==>
            || Home(r.kind, s.decisions) != Some(o)
            || a == RetainPlacement(o)
            || WorkIs(s.mw, t, Primary))
      && (r.kind == ByPlacement && Keeps(s.decisions, o) && !Keeps(n.decisions, o) ==>
            a == DropPlacement(o) || (a.Place? && WorkIs(s.mw, t, Primary) && !KeepsRetained(s.decisions, o)))
      && (r.kind == ByPlacement && KeepsRetained(s.decisions, o) && !KeepsRetained(n.decisions, o) ==>
            a == DropPlacement(o))
  {
    var o, n, l := Peer(t), Next(r, s, Write(a)), s.decisions;
    WriteRoles(r, t, s, a);
    assert a.SetStatus? || n.decisions == WritePlacement(r.kind, l, a);
    if r.kind == ByPlacement {
      match a {
        case RetainPlacement(c) => RetainEffect(l, c, o);
        case Place(c, reason) =>
          PlaceEffect(l, Decision(c, reason), o);
          KeepsEither(n.decisions, o);
        case DropPlacement(c) => DropEffect(l, c, o);
        case _ =>
      }
    }
  }

  lemma KeepsEither(l: Decisions, o: Cluster)
    ensures KeepsRetained(l, o) ==> Keeps(l, o)
  {
    if KeepsRetained(l, o) {
      var i :| 0 <= i < |l| && l[i] == Decision(o, Retained);
      assert l[i].cluster == o;
    }
  }
}
