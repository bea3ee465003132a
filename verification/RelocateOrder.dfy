/** The order of the stages of a relocation, over every execution whose VRG controllers take no report
    back. */
module RelocateOrder {
  import opened Options
  import opened DRTypes
  import opened PlacementDecisions
  import opened Protocol
  import opened RelocateSafety

  ghost predicate SteadyStep(s: State, e: Event) {
    e.Report? && e.cluster in s.live ==> Steady(s.live[e.cluster], e.status)
  }

  ghost predicate SteadyExecution(x: Execution)
    requires |x.states| == |x.events| + 1
  {
    forall i | 0 <= i < |x.events| :: SteadyStep(x.states[i], x.events[i])
  }

  // ---------------------------------------------------------------------------
  // Final sync and placement
  // ---------------------------------------------------------------------------

  /** What an earlier look at a primary reported, a later look reports as well. */
  predicate FlagsGrow(earlier: Views, later: Views, c: Cluster) {
    SeenAs(earlier, c, Primary) && SeenAs(later, c, Primary) ==>
      && (earlier[c].status.prepared ==> later[c].status.prepared)
      && (earlier[c].status.finalSynced ==> later[c].status.finalSynced)
  }

  predicate Synced(m: Views, c: Cluster) {
    SeenAs(m, c, Primary) ==> m[c].status.prepared && m[c].status.finalSynced
  }

  /** A final sync is only requested from a primary whose placement is cleared; the old home is
      only demoted after it reported both stages; the placement names the target only after that. */
  ghost predicate SyncInv(r: Run, p: Cluster, s: State) {
    var q := Peer(p);
    && FlagsGrow(Working(s), s.view, q) && FlagsGrow(s.view, s.live, q)
    && (WorkIs(s.mw, q, Secondary) ==>
          && !s.mw[q].runFinalSync && !s.mw[q].prepareForFinalSync
          && Synced(s.live, q) && Synced(s.view, q) && Synced(Working(s), q))
    && (q in s.mw && s.mw[q].runFinalSync ==> Home(r.kind, s.decisions) == None)
    && (Home(r.kind, s.decisions) == Some(p) ==> SeenAs(s.view, q, Secondary))
    && (r.kind == ByPlacement ==> AtMostOneActive(s.decisions))
  }

  lemma SettledSync(r: Run, p: Cluster, s: State)
    requires IsRelocation(r, p) && Settled(r, Peer(p), s)
    ensures SyncInv(r, p, s) && Home(r.kind, s.decisions) == Some(Peer(p))
  {
    HomeOfOne(r.kind, s.decisions);
  }

  /** Which final-sync flags a write raises. */
  lemma FlagsAfter(x: Ctx, mw: map<Cluster, VRGSpec>, a: Act, c: Cluster)
    requires c in mw
    ensures WriteWork(x, mw, a)[c].runFinalSync ==> mw[c].runFinalSync || a == RunSync(c)
    ensures WriteWork(x, mw, a)[c].prepareForFinalSync ==> mw[c].prepareForFinalSync || a == PrepareSync(c)
    ensures a == Demote(c) ==> !WriteWork(x, mw, a)[c].runFinalSync && !WriteWork(x, mw, a)[c].prepareForFinalSync
  {
  }

  lemma HomeAfter(kind: PlacementKind, l: Decisions, a: Act)
    requires !a.RetainPlacement? && !a.SetStatus? && (a.Place? ==> !a.reason.Retained?)
    requires kind == ByPlacement ==> AtMostOneActive(l)
    ensures var h := Home(kind, WritePlacement(kind, l, a));
            match a case ClearPlacement => h == None case Place(c, _) => h == Some(c) case _ => h == Home(kind, l)
    ensures kind == ByPlacement ==> AtMostOneActive(WritePlacement(kind, l, a))
  {
    match a {
      case ClearPlacement => UpdateSetsHome(kind, l, a);
      case Place(_, _) => UpdateSetsHome(kind, l, a);
      case DropPlacement(c) => DropKeepsHome(kind, l, c);
      case _ =>
    }
  }

  /** What the snapshot must show for a write that changes roles, flags or placement. */
  ghost predicate Caused(p: Cluster, s: State, a: Act) {
    var q, w := Peer(p), Working(s);
    && !a.RetainPlacement?
    && (a.Place? ==> a.cluster == p && !a.reason.Retained? && p in w && Ready(w[p]))
    && (a == Demote(q) ==> SeenAs(w, q, Primary) && w[q].status.prepared && w[q].status.finalSynced)
    && (a == PrepareSync(q) ==> SeenAs(w, q, Primary) && !w[q].status.prepared)
    && (a == RunSync(q) ==>
          SeenAs(w, q, Primary) && !w[q].status.finalSynced && Home(s.hub.ctx.kind, s.decisions) == None)
    && (a == Promote(p) ==> q in w && SettledSecondary(w[q]) && DataProtected(w[q]))
    && (a.SetupSecondary? ==> a.cluster == q && WorkIs(s.mw, q, Secondary)) && a != Promote(q)
  }

  lemma WritesAreCaused(r: Run, p: Cluster, s: State, a: Act)
    requires IsRelocation(r, p) && RolesInv(r, p, s) && Enabled(r, s, Write(a))
    ensures s.hub.Busy? && Caused(p, s, a)
  {
  }

  lemma CausedKeepsSync(r: Run, p: Cluster, s: State, a: Act)
    requires RolesInv(r, p, s) && SyncInv(r, p, s) && s.hub.Busy? && Caused(p, s, a) && !a.SetStatus?
    ensures SyncInv(r, p, Next(r, s, Write(a)))
  {
    var q, n := Peer(p), Next(r, s, Write(a));
    RolesAfter(s.hub.ctx, s.mw, a, q);
    FlagsAfter(s.hub.ctx, s.mw, a, q);
    HomeAfter(r.kind, s.decisions, a);
    assert n.mw == WriteWork(s.hub.ctx, s.mw, a) && n.decisions == WritePlacement(r.kind, s.decisions, a);
    assert n.live == s.live && n.view == s.view && Working(n) == Working(s);
  }

  lemma ApplyKeepsSync(r: Run, p: Cluster, s: State, c: Cluster)
    requires RolesInv(r, p, s) && SyncInv(r, p, s) && c in s.mw
    ensures SyncInv(r, p, Next(r, s, Apply(c)))
  {
    AppliedFacts(s.live, c, s.mw[c]);
    var n := Next(r, s, Apply(c));
    assert n.mw == s.mw && n.view == s.view && n.hub == s.hub && n.decisions == s.decisions;
  }

  lemma ReportKeepsSync(r: Run, p: Cluster, s: State, c: Cluster, st: VRGStatus)
    requires RolesInv(r, p, s) && SyncInv(r, p, s) && c in s.live && Steady(s.live[c], st)
    ensures SyncInv(r, p, Next(r, s, Report(c, st)))
  {
    var n := Next(r, s, Report(c, st));
    assert n.mw == s.mw && n.view == s.view && n.hub == s.hub && n.decisions == s.decisions;
  }

  lemma RefreshKeepsSync(r: Run, p: Cluster, s: State, c: Cluster)
    requires RolesInv(r, p, s) && SyncInv(r, p, s) && c in s.live
    ensures SyncInv(r, p, Next(r, s, Refresh(c)))
  {
    var n := Next(r, s, Refresh(c));
    assert n.mw == s.mw && n.live == s.live && n.decisions == s.decisions && Working(n) == Working(s);
  }

  lemma HubKeepsSync(r: Run, p: Cluster, s: State, e: Event)
    requires SyncInv(r, p, s) && (e.Begin? || e.Stop?)
    ensures SyncInv(r, p, Next(r, s, e))
  {
    var n := Next(r, s, e);
    assert n.mw == s.mw && n.live == s.live && n.view == s.view && n.decisions == s.decisions;
  }

  lemma StepKeepsSync(r: Run, p: Cluster, s: State, e: Event)
    requires IsRelocation(r, p) && RolesInv(r, p, s) && SyncInv(r, p, s)
    requires Enabled(r, s, e) && SteadyStep(s, e)
    ensures SyncInv(r, p, Next(r, s, e))
  {
    match e {
      case Write(a) =>
        WritesAreCaused(r, p, s, a);
        if !a.SetStatus? { CausedKeepsSync(r, p, s, a); }
      case Apply(c) => ApplyKeepsSync(r, p, s, c);
      case Report(c, st) => ReportKeepsSync(r, p, s, c, st);
      case Refresh(c) => RefreshKeepsSync(r, p, s, c);
      case _ => HubKeepsSync(r, p, s, e);
    }
  }

  ghost predicate SteadyRelocation(r: Run, p: Cluster, x: Execution) {
    Relocation(r, p, x) && SteadyExecution(x)
  }

  lemma {:induction false} SyncAlways(r: Run, p: Cluster, x: Execution, k: nat)
    requires SteadyRelocation(r, p, x) && k < |x.states|
    ensures SyncInv(r, p, x.states[k])
  {
    if k == 0 {
      SettledSync(r, p, x.states[0]);
    } else {
      SyncAlways(r, p, x, k - 1);
      RolesAlways(r, p, x, k - 1);
      assert StepOf(r, x, k - 1);
      StepKeepsSync(r, p, x.states[k - 1], x.events[k - 1]);
    }
  }

  // ---------------------------------------------------------------------------
  // The order of the stages
  // ---------------------------------------------------------------------------

  predicate RunRequested(s: State, q: Cluster) {
    q in s.mw && s.mw[q].runFinalSync
  }

  /** Up to `k` the final sync of `q` was requested. */
  ghost predicate OnceRequested(x: Execution, q: Cluster, k: nat) {
    exists i: nat :: i <= k && i < |x.states| && RunRequested(x.states[i], q)
  }

  predicate SyncReported(s: State, q: Cluster) {
    SeenAs(s.view, q, Primary) && s.view[q].status.prepared && s.view[q].status.finalSynced
  }

  /** Up to `k` the view of `q` showed a finished final sync, which had been requested before. */
  ghost predicate OnceSynced(x: Execution, q: Cluster, k: nat) {
    exists j: nat :: j <= k && j < |x.states| && SyncReported(x.states[j], q) && OnceRequested(x, q, j)
  }

  /** Up to `k` the view of `q` showed it settled as Secondary with its data protected, after the
      final sync. */
  ghost predicate OnceDemoted(x: Execution, q: Cluster, k: nat) {
    exists j: nat :: j <= k && j < |x.states| && DemotionReported(x.states[j], q) && OnceSynced(x, q, j)
  }

  predicate ArrivalReported(s: State, p: Cluster) {
    && SeenAs(s.view, p, Primary) && s.view[p].status.state == AsPrimary
    && s.view[p].status.dataReady == Condition(true, s.view[p].generation)
    && s.view[p].status.clusterDataReady == Condition(true, s.view[p].generation)
  }

  /** Up to `k` the view of `p` showed it Primary and ready, after the demotion of its peer. */
  ghost predicate OnceArrived(x: Execution, p: Cluster, k: nat) {
    exists j: nat :: j <= k && j < |x.states| && ArrivalReported(x.states[j], p) && OnceDemoted(x, Peer(p), j)
  }

  lemma OnceStays(x: Execution, p: Cluster, j: nat, k: nat)
    requires j <= k < |x.states|
    ensures OnceRequested(x, Peer(p), j) ==> OnceRequested(x, Peer(p), k)
    ensures OnceSynced(x, Peer(p), j) ==> OnceSynced(x, Peer(p), k)
    ensures OnceDemoted(x, Peer(p), j) ==> OnceDemoted(x, Peer(p), k)
    ensures OnceArrived(x, p, j) ==> OnceArrived(x, p, k)
  {
  }

  /** What each party knows at `k`, and what must have come before it. */
  ghost predicate HistoryInv(r: Run, p: Cluster, x: Execution, k: nat)
    requires k < |x.states|
  {
    var q, s := Peer(p), x.states[k];
    && (q in s.live && (s.live[q].spec.runFinalSync || s.live[q].status.finalSynced) ==> OnceRequested(x, q, k))
    && (q in s.view && s.view[q].status.finalSynced ==> OnceRequested(x, q, k))
    && (SeenAs(Working(s), q, Primary) && Working(s)[q].status.prepared && Working(s)[q].status.finalSynced ==>
          OnceSynced(x, q, k))
    && (WorkIs(s.mw, q, Secondary) ==> OnceSynced(x, q, k))
    && (q in Working(s) && SettledSecondary(Working(s)[q]) && DataProtected(Working(s)[q]) ==> OnceDemoted(x, q, k))
    && (PrimarySomewhere(s, p) ==> OnceDemoted(x, q, k))
    && (p in Working(s) && Ready(Working(s)[p]) ==> OnceArrived(x, p, k))
    && (Home(r.kind, s.decisions) == Some(p) ==> OnceArrived(x, p, k))
  }

  /** What a write of the hub can change, and what the snapshot must show for it. */
  lemma WriteCauses(r: Run, p: Cluster, s: State, a: Act)
    requires RolesInv(r, p, s) && SyncInv(r, p, s) && s.hub.Busy? && Caused(p, s, a)
    ensures
      var q, w, n := Peer(p), Working(s), Next(r, s, Write(a));
      && n.live == s.live && n.view == s.view && Working(n) == w
      && (WorkIs(n.mw, q, Secondary) ==>
            WorkIs(s.mw, q, Secondary) || (SeenAs(w, q, Primary) && w[q].status.prepared && w[q].status.finalSynced))
      && (WorkIs(n.mw, p, Primary) ==>
            WorkIs(s.mw, p, Primary) || (q in w && SettledSecondary(w[q]) && DataProtected(w[q])))
      && (Home(r.kind, n.decisions) == Some(p) ==>
            Home(r.kind, s.decisions) == Some(p) || (p in w && Ready(w[p])))
  {
    var q, n := Peer(p), Next(r, s, Write(a));
    if !a.SetStatus? {
      RolesAfter(s.hub.ctx, s.mw, a, p);
      RolesAfter(s.hub.ctx, s.mw, a, q);
      HomeAfter(r.kind, s.decisions, a);
      assert n.mw == WriteWork(s.hub.ctx, s.mw, a) && n.decisions == WritePlacement(r.kind, s.decisions, a);
      if WorkIs(n.mw, q, Secondary) && !WorkIs(s.mw, q, Secondary) {
        assert a == Demote(q);
      }
    }
  }

  /** The other parties only pass on what is already known. */
  ghost predicate PassedOn(p: Cluster, s: State, n: State) {
    var q := Peer(p);
    && n.mw == s.mw && n.decisions == s.decisions && (Working(n) == Working(s) || Working(n) == map[])
    && (PrimarySomewhere(n, p) ==> PrimarySomewhere(s, p))
    && (q in n.live && n.live[q].spec.runFinalSync ==> (q in s.live && s.live[q].spec.runFinalSync) || RunRequested(s, q))
    && (q in n.live && n.live[q].status.finalSynced ==>
          q in s.live && (s.live[q].status.finalSynced || s.live[q].spec.runFinalSync))
    && (q in n.view && n.view[q].status.finalSynced ==>
          (q in s.view && s.view[q].status.finalSynced) || (q in s.live && s.live[q].status.finalSynced))
  }

  lemma ApplyPassesOn(r: Run, p: Cluster, s: State, c: Cluster)
    requires RolesInv(r, p, s) && c in s.mw
    ensures PassedOn(p, s, Next(r, s, Apply(c)))
  {
    AppliedFacts(s.live, c, s.mw[c]);
    var n := Next(r, s, Apply(c));
    assert n.mw == s.mw && n.view == s.view && n.hub == s.hub && n.live == Applied(s.live, c, s.mw[c]);
  }

  lemma OthersPassOn(r: Run, p: Cluster, s: State, e: Event)
    requires RolesInv(r, p, s) && Enabled(r, s, e) && (e.Apply? || e.Report? || e.Refresh? || e.Stop?)
    ensures PassedOn(p, s, Next(r, s, e))
  {
    match e {
      case Apply(c) => ApplyPassesOn(r, p, s, c);
      case _ =>
    }
  }

  /** What holds of step `k` of a relocation. */
  lemma StepAt(r: Run, p: Cluster, x: Execution, k: nat)
    requires SteadyRelocation(r, p, x) && k + 1 < |x.states|
    ensures x.states[k + 1] == Next(r, x.states[k], x.events[k])
    ensures Enabled(r, x.states[k], x.events[k]) && SteadyStep(x.states[k], x.events[k])
    ensures RolesInv(r, p, x.states[k]) && SyncInv(r, p, x.states[k])
  {
    RolesAlways(r, p, x, k);
    SyncAlways(r, p, x, k);
    assert StepOf(r, x, k);
  }

  lemma BeginKeepsHistory(r: Run, p: Cluster, x: Execution, k: nat)
    requires k + 1 < |x.states| && HistoryInv(r, p, x, k) && RolesInv(r, p, x.states[k]) && RolesInv(r, p, x.states[k + 1])
    requires exists env :: x.states[k].hub.Idle? && x.states[k + 1] == Next(r, x.states[k], Begin(env))
    ensures HistoryInv(r, p, x, k + 1)
  {
    var q, s, n := Peer(p), x.states[k], x.states[k + 1];
    OnceStays(x, p, k, k + 1);
    var w := Working(n);
    assert n.mw == s.mw && n.live == s.live && n.view == s.view && n.decisions == s.decisions;
    assert forall c | c in w :: w[c] == n.view[c];
    if SeenAs(w, q, Primary) && w[q].status.prepared && w[q].status.finalSynced {
      assert SyncReported(n, q);
    }
    if q in w && SettledSecondary(w[q]) && DataProtected(w[q]) {
      assert DemotionReported(n, q);
    }
    if p in w && Ready(w[p]) {
      assert ArrivalReported(n, p);
      assert PrimarySomewhere(s, p);
    }
  }

  lemma CausedKeepsHistory(r: Run, p: Cluster, x: Execution, k: nat, a: Act)
    requires k + 1 < |x.states| && HistoryInv(r, p, x, k)
    requires RolesInv(r, p, x.states[k]) && SyncInv(r, p, x.states[k]) && x.states[k].hub.Busy? && Caused(p, x.states[k], a)
    requires x.states[k + 1] == Next(r, x.states[k], Write(a))
    ensures HistoryInv(r, p, x, k + 1)
  {
    OnceStays(x, p, k, k + 1);
    WriteCauses(r, p, x.states[k], a);
  }

  lemma PassedOnKeepsHistory(r: Run, p: Cluster, x: Execution, k: nat)
    requires k + 1 < |x.states| && HistoryInv(r, p, x, k) && PassedOn(p, x.states[k], x.states[k + 1])
    ensures HistoryInv(r, p, x, k + 1)
  {
    OnceStays(x, p, k, k + 1);
    assert RunRequested(x.states[k], Peer(p)) ==> OnceRequested(x, Peer(p), k + 1);
  }

  lemma StepKeepsHistory(r: Run, p: Cluster, x: Execution, k: nat)
    requires SteadyRelocation(r, p, x) && k + 1 < |x.states| && HistoryInv(r, p, x, k)
    ensures HistoryInv(r, p, x, k + 1)
  {
    var s, e := x.states[k], x.events[k];
    StepAt(r, p, x, k);
    match e {
      case Begin(env) =>
        RolesAlways(r, p, x, k + 1);
        BeginKeepsHistory(r, p, x, k);
      case Write(a) =>
        WritesAreCaused(r, p, s, a);
        CausedKeepsHistory(r, p, x, k, a);
      case _ =>
        OthersPassOn(r, p, s, e);
        PassedOnKeepsHistory(r, p, x, k);
    }
  }

  lemma {:induction false} HistoryAlways(r: Run, p: Cluster, x: Execution, k: nat)
    requires SteadyRelocation(r, p, x) && k < |x.states|
    ensures HistoryInv(r, p, x, k)
  {
    if k == 0 {
      SettledSync(r, p, x.states[0]);
    } else {
      HistoryAlways(r, p, x, k - 1);
      StepKeepsHistory(r, p, x, k - 1);
    }
  }

  /** The stages of a relocation happen in one order, in every execution:
      a final sync is requested only with the placement cleared; the old home is demoted only after
      its view reported the final sync; the target is promoted, in its MW or its VRG, only after the
      old home was seen settled as Secondary with its data protected; and the placement names the
      target only after its view was Primary and ready. */
  lemma StagesInOrder(r: Run, p: Cluster, x: Execution, k: nat)
    requires SteadyRelocation(r, p, x) && k < |x.states|
    ensures
      var q, s := Peer(p), x.states[k];
      && (RunRequested(s, q) ==> Home(r.kind, s.decisions) == None)
      && (WorkIs(s.mw, q, Secondary) ==> OnceSynced(x, q, k))
      && (WorkIs(s.mw, p, Primary) || SeenAs(s.live, p, Primary) ==> OnceDemoted(x, q, k))
      && (Home(r.kind, s.decisions) == Some(p) ==> OnceArrived(x, p, k))
  {
    SyncAlways(r, p, x, k);
    HistoryAlways(r, p, x, k);
  }
}
