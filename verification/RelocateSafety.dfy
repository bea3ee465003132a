/** Safety of relocation, over every execution: any interleaving of the hub's writes with agents,
    VRG controllers and views, any failing or interrupted reconcile, any lost status. */
module RelocateSafety {
  import opened Options
  import opened DRTypes
  import opened PlacementDecisions
  import opened Protocol

  predicate IsRelocation(r: Run, p: Cluster) {
    r.spec.action == Relocate && r.spec.preferredCluster == Some(p)
  }

  /** An execution of a relocation to `p` that starts at rest on the other cluster. */
  ghost predicate Relocation(r: Run, p: Cluster, x: Execution) {
    IsRelocation(r, p) && IsExecution(r, x) && Settled(r, Peer(p), x.states[0])
  }

  /** The views a reconcile in progress works from; empty between reconciles. */
  function Working(s: State): Views {
    match s.hub case Busy(x, _) => x.views case Idle => map[]
  }

  predicate HonestViews(m: Views) { forall c | c in m :: Honest(m[c]) }

  predicate PrimarySomewhere(s: State, c: Cluster) {
    WorkIs(s.mw, c, Primary) || SeenAs(s.live, c, Primary) || SeenAs(s.view, c, Primary) || SeenAs(Working(s), c, Primary)
  }

  /** Where the two clusters stand: the demotion of the old home spreads from its MW to the VRG,
      the view and the snapshot, and the target is only ever primary after all of that. */
  ghost predicate RolesInv(r: Run, p: Cluster, s: State) {
    var q := Peer(p);
    && (s.hub.Busy? ==> s.hub.ctx.spec == r.spec && s.hub.ctx.kind == r.kind)
    && q in s.mw && q in s.live && q in s.view
    && HonestViews(s.live) && HonestViews(s.view) && HonestViews(Working(s))
    && (SeenAs(Working(s), q, Secondary) ==> SeenAs(s.view, q, Secondary))
    && (SeenAs(s.view, q, Secondary) ==> SeenAs(s.live, q, Secondary))
    && (SeenAs(s.live, q, Secondary) ==> WorkIs(s.mw, q, Secondary))
    && (PrimarySomewhere(s, p) ==> SeenAs(s.view, q, Secondary))
  }

  lemma HomeOfOne(kind: PlacementKind, l: Decisions)
    requires |l| == 1 && IsActive(l[0])
    ensures Home(kind, l) == Some(l[0].cluster) && ActiveOf(l) == l
  {
    assert l[..0] == [];
    assert ActiveOf(l) == [l[0]];
  }

  lemma SettledRoles(r: Run, p: Cluster, s: State)
    requires IsRelocation(r, p) && Settled(r, Peer(p), s)
    ensures RolesInv(r, p, s)
  {
  }

  lemma DropKeepsHome(kind: PlacementKind, l: Decisions, c: Cluster)
    ensures Home(kind, WritePlacement(kind, l, DropPlacement(c))) == Home(kind, l)
    ensures AtMostOneActive(l) ==> AtMostOneActive(WritePlacement(kind, l, DropPlacement(c)))
  {
    WithoutFacts(l, c);
  }

  lemma UpdateSetsHome(kind: PlacementKind, l: Decisions, a: Act)
    requires a.ClearPlacement? || (a.Place? && !a.reason.Retained?)
    requires kind == ByPlacement ==> AtMostOneActive(l)
    ensures Home(kind, WritePlacement(kind, l, a)) == if a.Place? then Some(a.cluster) else None
    ensures kind == ByPlacement ==> AtMostOneActive(WritePlacement(kind, l, a))
  {
    if kind == ByPlacement {
      var next := if a.Place? then Some(Decision(a.cluster, a.reason)) else None;
      assert WritePlacement(kind, l, a) == Updated(l, next);
      UpdateKeepsRetained(l, next);
    }
  }

  /** Which MWs a write turns into which role. */
  lemma RolesAfter(x: Ctx, mw: map<Cluster, VRGSpec>, a: Act, c: Cluster)
    ensures c in mw ==> c in WriteWork(x, mw, a)
    ensures WorkIs(WriteWork(x, mw, a), c, Primary) ==> WorkIs(mw, c, Primary) || a == Promote(c)
    ensures WorkIs(mw, c, Secondary) ==> WorkIs(WriteWork(x, mw, a), c, Secondary) || a == Promote(c)
  {
  }

  lemma WriteKeepsRoles(r: Run, p: Cluster, s: State, a: Act)
    requires IsRelocation(r, p) && RolesInv(r, p, s) && Enabled(r, s, Write(a))
    ensures RolesInv(r, p, Next(r, s, Write(a)))
  {
    var x, n := s.hub.ctx, Next(r, s, Write(a));
    RolesAfter(x, s.mw, a, p);
    RolesAfter(x, s.mw, a, Peer(p));
    assert n.mw == WriteWork(x, s.mw, a);
    assert n.live == s.live && n.view == s.view && Working(n) == Working(s);
  }

  lemma AppliedFacts(live: Views, c: Cluster, spec: VRGSpec)
    requires HonestViews(live)
    ensures HonestViews(Applied(live, c, spec))
    ensures forall d, role :: SeenAs(Applied(live, c, spec), d, role) <==>
                              if d == c then spec.role == role else SeenAs(live, d, role)
    ensures forall d | d in live :: d in Applied(live, c, spec)
  {
    var n := Applied(live, c, spec);
    assert forall d | d in n && d != c :: d in live && n[d] == live[d];
    assert Honest(n[c]);
  }

  lemma ApplyKeepsRoles(r: Run, p: Cluster, s: State, c: Cluster)
    requires RolesInv(r, p, s) && c in s.mw
    ensures RolesInv(r, p, Next(r, s, Apply(c)))
  {
    AppliedFacts(s.live, c, s.mw[c]);
    var n := Next(r, s, Apply(c));
    assert n.mw == s.mw && n.view == s.view && n.hub == s.hub && n.live == Applied(s.live, c, s.mw[c]);
  }

  lemma ReportKeepsRoles(r: Run, p: Cluster, s: State, c: Cluster, st: VRGStatus)
    requires RolesInv(r, p, s) && c in s.live && ReportOk(s.live[c], st)
    ensures RolesInv(r, p, Next(r, s, Report(c, st)))
  {
  }

  lemma RefreshKeepsRoles(r: Run, p: Cluster, s: State, c: Cluster)
    requires RolesInv(r, p, s) && c in s.live
    ensures RolesInv(r, p, Next(r, s, Refresh(c)))
  {
  }

  /** Only the hub's writes change MWs and placement; views catch up with VRGs, and a snapshot is
      taken from the views. */
  lemma LookFacts(r: Run, s: State, e: Event, c: Cluster)
    requires Enabled(r, s, e)
    ensures
      var n := Next(r, s, e);
      && (!e.Write? ==> n.mw == s.mw && n.decisions == s.decisions)
      && (c in n.view ==> (c in s.view && n.view[c] == s.view[c]) || (c in s.live && n.view[c] == s.live[c]))
      && (c in Working(n) ==>
            || (e.Begin? && n.view == s.view && c in s.view && Working(n)[c] == s.view[c])
            || (!e.Begin? && c in Working(s) && Working(n)[c] == Working(s)[c]))
  {
  }

  lemma StepKeepsRoles(r: Run, p: Cluster, s: State, e: Event)
    requires IsRelocation(r, p) && RolesInv(r, p, s) && Enabled(r, s, e)
    ensures RolesInv(r, p, Next(r, s, e))
  {
    match e {
      case Write(a) => WriteKeepsRoles(r, p, s, a);
      case Apply(c) => ApplyKeepsRoles(r, p, s, c);
      case Report(c, st) => ReportKeepsRoles(r, p, s, c, st);
      case Refresh(c) => RefreshKeepsRoles(r, p, s, c);
      case Begin(env) =>
        assert forall c | c in Snapshot(s.view, env.reachable) :: Snapshot(s.view, env.reachable)[c] == s.view[c];
      case Stop(_) =>
    }
  }

  lemma {:induction false} RolesAlways(r: Run, p: Cluster, x: Execution, k: nat)
    requires Relocation(r, p, x) && k < |x.states|
    ensures RolesInv(r, p, x.states[k])
  {
    if k == 0 {
      SettledRoles(r, p, x.states[0]);
    } else {
      RolesAlways(r, p, x, k - 1);
      assert StepOf(r, x, k - 1);
      StepKeepsRoles(r, p, x.states[k - 1], x.events[k - 1]);
    }
  }

  /** Relocation never has two primaries: neither two Primary MWs, nor two Primary VRGs, nor an
      MW of one cluster promoted while the VRG of the other still is Primary. */
  lemma NeverTwoPrimaries(r: Run, p: Cluster, x: Execution, k: nat)
    requires Relocation(r, p, x) && k < |x.states|
    ensures
      var s := x.states[k];
      && !(WorkIs(s.mw, DR1, Primary) && WorkIs(s.mw, DR2, Primary))
      && !(SeenAs(s.live, DR1, Primary) && SeenAs(s.live, DR2, Primary))
      && (WorkIs(s.mw, p, Primary) || SeenAs(s.live, p, Primary) ==>
            WorkIs(s.mw, Peer(p), Secondary) && SeenAs(s.live, Peer(p), Secondary))
  {
    RolesAlways(r, p, x, k);
  }

  // ---------------------------------------------------------------------------
  // The demotion is reported before the promotion
  // ---------------------------------------------------------------------------

  /** `q` is Secondary in its MW and its VRG, and its view shows it settled with its data protected. */
  predicate DemotionReported(s: State, q: Cluster) {
    && WorkIs(s.mw, q, Secondary) && SeenAs(s.live, q, Secondary) && SeenAs(s.view, q, Secondary)
    && s.view[q].status.state == AsSecondary && s.view[q].status.observed == s.view[q].generation
    && s.view[q].status.dataProtected == Condition(true, s.view[q].generation)
  }

  ghost predicate OnceReported(x: Execution, q: Cluster, k: nat) {
    exists j: nat :: j <= k && j < |x.states| && DemotionReported(x.states[j], q)
  }

  predicate ProtectedIn(m: Views, q: Cluster) { q in m && SettledSecondary(m[q]) && DataProtected(m[q]) }

  ghost predicate ReportInv(x: Execution, p: Cluster, k: nat)
    requires k < |x.states|
  {
    PrimarySomewhere(x.states[k], p) || ProtectedIn(Working(x.states[k]), Peer(p)) ==> OnceReported(x, Peer(p), k)
  }

  /** A target becomes primary only by a promotion, and is promoted only on such a report. */
  lemma PrimaryCause(r: Run, p: Cluster, s: State, e: Event)
    requires IsRelocation(r, p) && RolesInv(r, p, s) && Enabled(r, s, e)
    ensures PrimarySomewhere(Next(r, s, e), p) ==> PrimarySomewhere(s, p) || ProtectedIn(Working(s), Peer(p))
  {
    match e {
      case Write(a) =>
        RolesAfter(s.hub.ctx, s.mw, a, p);
        assert a.SetStatus? || Next(r, s, e).mw == WriteWork(s.hub.ctx, s.mw, a);
      case Apply(c) => AppliedFacts(s.live, c, s.mw[c]);
      case _ =>
    }
  }

  lemma ReportAfter(r: Run, p: Cluster, x: Execution, k: nat)
    requires Relocation(r, p, x) && k + 1 < |x.states| && ReportInv(x, p, k)
    ensures ReportInv(x, p, k + 1)
  {
    var s, e, n := x.states[k], x.events[k], x.states[k + 1];
    RolesAlways(r, p, x, k);
    RolesAlways(r, p, x, k + 1);
    assert StepOf(r, x, k);
    PrimaryCause(r, p, s, e);
    LookFacts(r, s, e, Peer(p));
    assert OnceReported(x, Peer(p), k) ==> OnceReported(x, Peer(p), k + 1);
    if e.Begin? && ProtectedIn(Working(n), Peer(p)) {
      assert DemotionReported(n, Peer(p));
    }
  }

  lemma {:induction false} ReportAlways(r: Run, p: Cluster, x: Execution, k: nat)
    requires Relocation(r, p, x) && k < |x.states|
    ensures ReportInv(x, p, k)
  {
    if k == 0 {
      SettledRoles(r, p, x.states[0]);
    } else {
      ReportAlways(r, p, x, k - 1);
      ReportAfter(r, p, x, k - 1);
    }
  }

  /** Whenever the target is Primary, in its MW or its VRG, the old home had been applied as Secondary and
      had reported that for its current generation, with its data protected. */
  lemma PrimaryAfterReport(r: Run, p: Cluster, x: Execution, k: nat)
    requires Relocation(r, p, x) && k < |x.states|
    requires WorkIs(x.states[k].mw, p, Primary) || SeenAs(x.states[k].live, p, Primary)
    ensures OnceReported(x, Peer(p), k)
  {
    ReportAlways(r, p, x, k);
  }
}
