/** When the promotion of a relocation can be undone, with VRG controllers that may take reports back: the
    exact condition on a state between two reconciles. */
module PromotionUndoing {
  import opened Options
  import opened DRTypes
  import opened PlacementDecisions
  import opened Protocol
  import opened Executions
  import opened RelocateSafety

  /** The promotion has sunk in: VRG and view show the target as Primary. */
  predicate SunkIn(p: Cluster, s: State) { SeenAs(s.live, p, Primary) && SeenAs(s.view, p, Primary) }

  /** The relocation is locked out: the target is not seen as Primary, and the stored status lets no
      relocation go on. */
  predicate LockedOut(p: Cluster, s: State) { !SeenAs(s.view, p, Primary) && !MayProceed(s.status) }

  // ---------------------------------------------------------------------------
  // What keeps the promotion
  // ---------------------------------------------------------------------------

  /** No reconcile, under way or to come, can demote the target. */
  ghost predicate Held(p: Cluster, s: State) {
    && WorkIs(s.mw, p, Primary)
    && (SeenAs(s.view, p, Primary) ==> SeenAs(s.live, p, Primary))
    && (SeenAs(Working(s), p, Primary) ==> SeenAs(s.view, p, Primary))
    && (!SeenAs(s.view, p, Primary) ==> !MayProceed(s.status) && (s.hub.Busy? ==> !MayProceed(s.hub.work)))
    && (s.hub.Busy? && {DR1, DR2} <= s.hub.ctx.env.reachable && !SeenAs(Working(s), p, Primary) ==>
          !MayProceed(s.hub.work))
  }

  lemma WriteKeepsHeld(r: Run, p: Cluster, s: State, a: Act)
    requires IsRelocation(r, p) && Held(p, s) && Enabled(r, s, Write(a)) && s.hub.ctx.spec == r.spec
    ensures Held(p, Next(r, s, Write(a)))
  {
    var n := Next(r, s, Write(a));
    assert a != Demote(p);
    assert n.live == s.live && n.view == s.view && Working(n) == Working(s) && n.status == s.status;
    if !a.SetStatus? {
      assert n.mw == WriteWork(s.hub.ctx, s.mw, a) && n.hub == s.hub;
      assert WorkIs(n.mw, p, Primary);
    }
  }

  lemma LookKeepsHeld(r: Run, p: Cluster, s: State, e: Event)
    requires Held(p, s) && Enabled(r, s, e) && (e.Begin? || e.Stop?)
    ensures Held(p, Next(r, s, e))
  {
    assert p == DR1 || p == DR2;
  }

  lemma OtherKeepsHeld(r: Run, p: Cluster, s: State, e: Event)
    requires Held(p, s) && Enabled(r, s, e) && (e.Apply? || e.Report? || e.Refresh?)
    ensures Held(p, Next(r, s, e))
  {
    var n := Next(r, s, e);
    assert n.mw == s.mw && n.status == s.status && n.hub == s.hub;
  }

  ghost predicate Fixed(r: Run, p: Cluster, s: State) { RolesInv(r, p, s) && Held(p, s) }

  lemma StepKeepsFixed(r: Run, p: Cluster, s: State, e: Event)
    requires IsRelocation(r, p) && Fixed(r, p, s) && Enabled(r, s, e)
    ensures Fixed(r, p, Next(r, s, e))
  {
    StepKeepsRoles(r, p, s, e);
    match e {
      case Write(a) => WriteKeepsHeld(r, p, s, a);
      case Begin(_) => LookKeepsHeld(r, p, s, e);
      case Stop(_) => LookKeepsHeld(r, p, s, e);
      case _ => OtherKeepsHeld(r, p, s, e);
    }
  }

  lemma {:induction false} FixedStays(r: Run, p: Cluster, x: Execution, j: nat, k: nat)
    requires IsRelocation(r, p) && IsExecution(r, x) && j <= k < |x.states| && Fixed(r, p, x.states[j])
    ensures Fixed(r, p, x.states[k])
    decreases k
  {
    if j < k {
      FixedStays(r, p, x, j, k - 1);
      assert StepOf(r, x, k - 1);
      StepKeepsFixed(r, p, x.states[k - 1], x.events[k - 1]);
    }
  }

  // ---------------------------------------------------------------------------
  // What undoes it
  // ---------------------------------------------------------------------------

  /** The old home leaves the settled state, and its view shows it. */
  function Unsettled(p: Cluster, s: State): State
    requires Peer(p) in s.live
  {
    var v := s.live[Peer(p)].(status := s.live[Peer(p)].status.(state := Unknown));
    s.(live := s.live[Peer(p) := v], view := s.view[Peer(p) := v])
  }

  lemma TurnsUnsettled(r: Run, p: Cluster, s: State) returns (x: Execution)
    requires RolesInv(r, p, s) && s.hub.Idle?
    ensures IsExecution(r, x) && x.states[0] == s && Last(x) == Unsettled(p, s)
  {
    var q := Peer(p);
    x := Then(r, Execution([s], []), Report(q, s.live[q].status.(state := Unknown)));
    x := Then(r, x, Refresh(q));
  }

  /** What the next reconcile sees then: the old home Secondary and not settled, the target not Primary. */
  lemma UnsettledSeen(r: Run, p: Cluster, s: State)
    requires RolesInv(r, p, s) && s.hub.Idle? && WorkIs(s.mw, p, Primary) && !SeenAs(s.view, p, Primary)
    ensures
      var w := CtxOf(r, Unsettled(p, s), QuietEnv()).views;
      SeenAs(w, Peer(p), Secondary) && !SettledSecondary(w[Peer(p)]) && !SeenAs(w, p, Primary)
  {
  }

  /** A relocation that may go on, and sees the old home Secondary and not settled, demotes its target. */
  lemma DemotesEverywhere(r: Run, p: Cluster, m: State) returns (x: Execution)
    requires IsRelocation(r, p) && m.hub.Idle? && WorkIs(m.mw, p, Primary) && MayProceed(m.status)
    requires
      var w := CtxOf(r, m, QuietEnv()).views;
      SeenAs(w, Peer(p), Secondary) && !SettledSecondary(w[Peer(p)]) && !SeenAs(w, p, Primary)
    ensures IsExecution(r, x) && x.states[0] == m && WorkIs(Last(x).mw, p, Secondary)
  {
    var withdrawn := m.status.(phase := Relocating, peerReady := PeerReady(false, false, true));
    TwoWrites(CtxOf(r, m, QuietEnv()), StoreOf(m), SetStatus(withdrawn), Demote(p));
    x := ReconcileIsExecution(r, m, QuietEnv(), [SetStatus(withdrawn), Demote(p)], true);
  }

  /** While the target is promoted and not seen as Primary, and the relocation may go on, a single report
      of the old home that leaves the settled state is enough for the next reconcile to demote the
      target again. */
  lemma UnsettledReportUndoesPromotion(r: Run, p: Cluster, s: State) returns (x: Execution)
    requires IsRelocation(r, p) && RolesInv(r, p, s) && s.hub.Idle?
    requires WorkIs(s.mw, p, Primary) && !SeenAs(s.view, p, Primary) && MayProceed(s.status)
    ensures IsExecution(r, x) && x.states[0] == s && WorkIs(Last(x).mw, p, Secondary)
  {
    UnsettledSeen(r, p, s);
    var first := TurnsUnsettled(r, p, s);
    var second := DemotesEverywhere(r, p, Unsettled(p, s));
    x := Join(r, first, second);
  }

  /** A reconcile that sees the target as Primary resumes the relocation. */
  lemma Resumes(r: Run, p: Cluster, s: State) returns (x: Execution)
    requires IsRelocation(r, p) && s.hub.Idle? && SeenAs(s.view, p, Primary)
    ensures IsExecution(r, x) && x.states[0] == s
    ensures Last(x) == s.(status := Last(x).status) && Last(x).status.phase == Relocating
  {
    x := Then(r, Execution([s], []), Begin(QuietEnv()));
    assert SeenAs(Last(x).hub.ctx.views, p, Primary);
    x := Then(r, x, Write(SetStatus(s.status.(phase := Relocating))));
    x := Then(r, x, Stop(true));
  }

  /** A view that shows the target as Primary while its VRG is not: a reconcile resumes the relocation,
      and then the view catches up. */
  lemma ViewFallsBack(r: Run, p: Cluster, s: State) returns (x: Execution)
    requires IsRelocation(r, p) && RolesInv(r, p, s) && s.hub.Idle?
    requires SeenAs(s.view, p, Primary) && p in s.live && !SeenAs(s.live, p, Primary)
    ensures IsExecution(r, x) && x.states[0] == s
    ensures Last(x).hub.Idle? && RolesInv(r, p, Last(x)) && Last(x).mw == s.mw
    ensures !SeenAs(Last(x).view, p, Primary) && MayProceed(Last(x).status)
  {
    x := Resumes(r, p, s);
    x := Then(r, x, Refresh(p));
    RolesAlong(r, p, x, |x.events|);
  }

  lemma {:induction false} RolesAlong(r: Run, p: Cluster, x: Execution, k: nat)
    requires IsRelocation(r, p) && IsExecution(r, x) && RolesInv(r, p, x.states[0]) && k < |x.states|
    ensures RolesInv(r, p, x.states[k])
  {
    if k > 0 {
      RolesAlong(r, p, x, k - 1);
      assert StepOf(r, x, k - 1);
      StepKeepsRoles(r, p, x.states[k - 1], x.events[k - 1]);
    }
  }

  /** What is in view exists. */
  lemma {:induction false} ViewedExist(r: Run, x: Execution, k: nat)
    requires IsExecution(r, x) && x.states[0].view == x.states[0].live && k < |x.states|
    ensures forall c | c in x.states[k].view :: c in x.states[k].live
  {
    if k > 0 {
      ViewedExist(r, x, k - 1);
      assert StepOf(r, x, k - 1);
    }
  }

  // ---------------------------------------------------------------------------
  // Exactly when
  // ---------------------------------------------------------------------------

  /** For every relocation run that has promoted its target and stands between two reconciles, some
      continuation demotes the target if and only if the promotion has not sunk in and the relocation is
      not locked out. */
  lemma PromotionUndoneExactly(r: Run, p: Cluster, x: Execution)
    requires Relocation(r, p, x) && Last(x).hub.Idle? && WorkIs(Last(x).mw, p, Primary)
    ensures
      (exists y :: Continues(r, x, y) && !WorkIs(Last(y).mw, p, Primary)) <==>
        !SunkIn(p, Last(x)) && !LockedOut(p, Last(x))
  {
    var s, n := Last(x), |x.events|;
    RolesAlways(r, p, x, n);
    if SunkIn(p, s) || LockedOut(p, s) {
      forall y | Continues(r, x, y) ensures WorkIs(Last(y).mw, p, Primary) {
        assert y.states[n] == s;
        FixedStays(r, p, y, n, |y.events|);
      }
    } else {
      ViewedExist(r, x, n);
      var more := Undo(r, p, s);
      var y := Join(r, x, more);
      assert !WorkIs(Last(y).mw, p, Primary);
    }
  }

  lemma Undo(r: Run, p: Cluster, s: State) returns (x: Execution)
    requires IsRelocation(r, p) && RolesInv(r, p, s) && s.hub.Idle? && WorkIs(s.mw, p, Primary)
    requires !SunkIn(p, s) && !LockedOut(p, s) && (p in s.view ==> p in s.live)
    ensures IsExecution(r, x) && x.states[0] == s && WorkIs(Last(x).mw, p, Secondary)
  {
    if SeenAs(s.view, p, Primary) {
      var first := ViewFallsBack(r, p, s);
      var second := UnsettledReportUndoesPromotion(r, p, Last(first));
      x := Join(r, first, second);
    } else {
      x := UnsettledReportUndoesPromotion(r, p, s);
    }
  }
}
