/** Stability of the promotion in a relocation: although the relocation contains a path that
    demotes every primary, the target is never demoted again once its MW was promoted, provided
    the VRG controllers take no report back. */
module PromotionStability {
  import opened Options
  import opened DRTypes
  import opened PlacementDecisions
  import opened Protocol
  import opened RelocateSafety
  import opened RelocateOrder

  predicate SettledIn(m: Views, c: Cluster) { c in m && SettledSecondary(m[c]) }

  /** The target has been promoted for everyone who could demote it: either the hub sees it as
      Primary, or the old home is still reported as settled. */
  predicate Guarded(m: Views, p: Cluster) { SettledIn(m, Peer(p)) || SeenAs(m, p, Primary) }

  ghost predicate StableInv(r: Run, p: Cluster, s: State) {
    var q, w := Peer(p), Working(s);
    && (SeenAs(w, p, Primary) ==> SeenAs(s.view, p, Primary))
    && (SeenAs(s.view, p, Primary) ==> SeenAs(s.live, p, Primary))
    && (SeenAs(s.live, p, Primary) ==> WorkIs(s.mw, p, Primary))
    && (!SeenAs(s.view, p, Primary) ==>
          && (WorkIs(s.mw, q, Secondary) && SeenAs(s.live, q, Secondary) ==> s.live[q].spec == s.mw[q])
          && (SettledIn(w, q) ==> SettledIn(s.view, q))
          && (SettledIn(s.view, q) ==> SettledIn(s.live, q)))
    && (WorkIs(s.mw, p, Primary) ==> Guarded(s.view, p))
    && (WorkIs(s.mw, p, Primary) && s.hub.Busy? && {DR1, DR2} <= s.hub.ctx.env.reachable ==> Guarded(w, p))
  }

  ghost predicate AllInv(r: Run, p: Cluster, s: State) {
    RolesInv(r, p, s) && SyncInv(r, p, s) && StableInv(r, p, s)
  }

  /** A relocation with a guarded target has no allowed demotion of the target. */
  lemma NoDemotion(r: Run, p: Cluster, s: State, a: Act)
    requires IsRelocation(r, p) && AllInv(r, p, s) && Enabled(r, s, Write(a))
    ensures a != Demote(p)
  {
  }

  /** Writes to the old home's MW once it is Secondary wait for the arrival of the target. */
  lemma SecondaryWorkStays(r: Run, p: Cluster, s: State, a: Act)
    requires IsRelocation(r, p) && AllInv(r, p, s) && Enabled(r, s, Write(a))
    requires !SeenAs(s.view, p, Primary) && WorkIs(s.mw, Peer(p), Secondary) && !a.SetStatus?
    ensures Peer(p) in WriteWork(s.hub.ctx, s.mw, a) && WriteWork(s.hub.ctx, s.mw, a)[Peer(p)] == s.mw[Peer(p)]
  {
  }

  lemma PromotedStays(x: Ctx, mw: map<Cluster, VRGSpec>, a: Act, c: Cluster)
    requires WorkIs(mw, c, Primary) && a != Demote(c) && !(a.SetupSecondary? && a.cluster == c)
    ensures WorkIs(WriteWork(x, mw, a), c, Primary)
  {
  }

  lemma WriteKeepsStable(r: Run, p: Cluster, s: State, a: Act)
    requires IsRelocation(r, p) && AllInv(r, p, s) && Enabled(r, s, Write(a))
    ensures StableInv(r, p, Next(r, s, Write(a)))
    ensures WorkIs(s.mw, p, Primary) ==> WorkIs(Next(r, s, Write(a)).mw, p, Primary)
  {
    var q, x, n := Peer(p), s.hub.ctx, Next(r, s, Write(a));
    if !a.SetStatus? {
      NoDemotion(r, p, s, a);
      RolesAfter(x, s.mw, a, p);
      RolesAfter(x, s.mw, a, q);
      assert n.mw == WriteWork(x, s.mw, a);
      assert n.live == s.live && n.view == s.view && Working(n) == Working(s) && n.hub.ctx == s.hub.ctx;
      if WorkIs(s.mw, p, Primary) {
        PromotedStays(x, s.mw, a, p);
      }
      if !SeenAs(s.view, p, Primary) && WorkIs(s.mw, q, Secondary) {
        SecondaryWorkStays(r, p, s, a);
      }
    }
  }

  lemma ApplyKeepsStable(r: Run, p: Cluster, s: State, c: Cluster)
    requires AllInv(r, p, s) && c in s.mw
    ensures StableInv(r, p, Next(r, s, Apply(c)))
  {
    AppliedFacts(s.live, c, s.mw[c]);
    var n := Next(r, s, Apply(c));
    assert n.mw == s.mw && n.view == s.view && n.hub == s.hub && n.live == Applied(s.live, c, s.mw[c]);
  }

  lemma ReportKeepsStable(r: Run, p: Cluster, s: State, c: Cluster, st: VRGStatus)
    requires AllInv(r, p, s) && c in s.live && Steady(s.live[c], st)
    ensures StableInv(r, p, Next(r, s, Report(c, st)))
  {
  }

  lemma OtherKeepsStable(r: Run, p: Cluster, s: State, e: Event)
    requires IsRelocation(r, p) && AllInv(r, p, s) && Enabled(r, s, e) && SteadyStep(s, e) && !e.Write? && !e.Begin?
    ensures StableInv(r, p, Next(r, s, e))
  {
    match e {
      case Apply(c) => ApplyKeepsStable(r, p, s, c);
      case Report(c, st) => ReportKeepsStable(r, p, s, c, st);
      case _ =>
    }
  }

  lemma BeginKeepsStable(r: Run, p: Cluster, s: State, env: Env)
    requires IsRelocation(r, p) && AllInv(r, p, s) && s.hub.Idle?
    ensures StableInv(r, p, Next(r, s, Begin(env)))
  {
    var w := Snapshot(s.view, env.reachable);
    assert forall c | c in w :: c in s.view && w[c] == s.view[c];
    if {DR1, DR2} <= env.reachable {
      forall c | c in s.view ensures c in w { assert c == DR1 || c == DR2; }
      assert w == s.view;
    }
    assert Working(Next(r, s, Begin(env))) == w;
  }

  lemma StepKeepsStable(r: Run, p: Cluster, s: State, e: Event)
    requires IsRelocation(r, p) && AllInv(r, p, s) && Enabled(r, s, e) && SteadyStep(s, e)
    ensures StableInv(r, p, Next(r, s, e))
  {
    match e {
      case Write(a) => WriteKeepsStable(r, p, s, a);
      case Begin(env) => BeginKeepsStable(r, p, s, env);
      case _ => OtherKeepsStable(r, p, s, e);
    }
  }

  lemma StableAfter(r: Run, p: Cluster, x: Execution, k: nat)
    requires SteadyRelocation(r, p, x) && k + 1 < |x.states| && StableInv(r, p, x.states[k])
    ensures StableInv(r, p, x.states[k + 1])
  {
    StepAt(r, p, x, k);
    StepKeepsStable(r, p, x.states[k], x.events[k]);
  }

  lemma {:induction false} StableAlways(r: Run, p: Cluster, x: Execution, k: nat)
    requires SteadyRelocation(r, p, x) && k < |x.states|
    ensures StableInv(r, p, x.states[k])
  {
    if k > 0 {
      StableAlways(r, p, x, k - 1);
      StableAfter(r, p, x, k - 1);
    }
  }

  lemma StepKeepsPromotion(r: Run, p: Cluster, s: State, e: Event)
    requires IsRelocation(r, p) && AllInv(r, p, s) && Enabled(r, s, e) && WorkIs(s.mw, p, Primary)
    ensures WorkIs(Next(r, s, e).mw, p, Primary)
  {
    if e.Write? { WriteKeepsStable(r, p, s, e.act); }
  }

  lemma PromotionSurvives(r: Run, p: Cluster, x: Execution, k: nat)
    requires SteadyRelocation(r, p, x) && k + 1 < |x.states| && WorkIs(x.states[k].mw, p, Primary)
    ensures WorkIs(x.states[k + 1].mw, p, Primary)
  {
    StableAlways(r, p, x, k);
    StepAt(r, p, x, k);
    StepKeepsPromotion(r, p, x.states[k], x.events[k]);
  }

  /** Once promoted, the target stays promoted to the end of the run. */
  lemma {:induction false} PromotionIsStable(r: Run, p: Cluster, x: Execution, j: nat, k: nat)
    requires SteadyRelocation(r, p, x) && j <= k < |x.states|
    requires WorkIs(x.states[j].mw, p, Primary)
    ensures WorkIs(x.states[k].mw, p, Primary)
    decreases k
  {
    if j < k {
      PromotionIsStable(r, p, x, j, k - 1);
      PromotionSurvives(r, p, x, k - 1);
    }
  }
}
