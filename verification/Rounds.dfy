/** Fair rounds: every MW is applied, every VRG reports that all is well, every view catches up, and then
    one reconcile runs to its end and saves its status. */
module Rounds {
  import opened Options
  import opened DRTypes
  import opened Protocol
  import opened Executions
  import opened RelocateSafety

  /** What one round brings: the reports of the two VRGs, and the reconcile with its writes. */
  datatype Round = Round(ofOld: VRGStatus, ofTarget: VRGStatus, env: Env, trace: seq<Act>)

  /** A report that all is well: a primary is ready, safe to leave, and did the stage of the final
      sync it was asked for; a secondary settled with its data protected. */
  predicate FairReport(v: VRG, st: VRGStatus) {
    var n := v.(status := st);
    && ReportOk(v, st) && Steady(v, st)
    && (v.spec.role == Primary ==>
          && Ready(n) && DataSafe(n)
          && (v.spec.prepareForFinalSync ==> st.prepared) && (v.spec.runFinalSync ==> st.finalSynced))
    && (v.spec.role == Secondary ==> SettledSecondary(n) && DataProtected(n))
  }

  function Applying(r: Run, s: State, c: Cluster): State { Next(r, s, Apply(c)) }

  /** The MW of one cluster is applied, its VRG reports, its view catches up. */
  function CatchUp(r: Run, s: State, c: Cluster, st: VRGStatus): State {
    if c !in s.mw then s else Next(r, Next(r, Applying(r, s, c), Report(c, st)), Refresh(c))
  }

  predicate FairCatchUp(r: Run, s: State, c: Cluster, st: VRGStatus) {
    c in s.mw ==> c in Applying(r, s, c).live && FairReport(Applying(r, s, c).live[c], st)
  }

  function CaughtUp(r: Run, p: Cluster, s: State, rd: Round): State {
    CatchUp(r, CatchUp(r, s, Peer(p), rd.ofOld), p, rd.ofTarget)
  }

  /** The state after the round. */
  ghost function After(r: Run, p: Cluster, s: State, rd: Round): State {
    var m := CaughtUp(r, p, s, rd);
    var n := Replay(CtxOf(r, m, rd.env), StoreOf(m), rd.trace);
    Next(r, InHub(m, CtxOf(r, m, rd.env), n), Stop(true))
  }

  /** The store the reconcile of the round leaves behind. */
  ghost function WorkOf(r: Run, p: Cluster, s: State, rd: Round): Store {
    var m := CaughtUp(r, p, s, rd);
    Replay(CtxOf(r, m, rd.env), StoreOf(m), rd.trace)
  }

  lemma AfterFields(r: Run, p: Cluster, s: State, rd: Round)
    ensures
      var n, work := After(r, p, s, rd), WorkOf(r, p, s, rd);
      && n.mw == work.mw && n.decisions == work.decisions && n.live == CaughtUp(r, p, s, rd).live
      && n.view == CaughtUp(r, p, s, rd).view
      && n.status == work.status.(peerReady := work.status.peerReady.(current := true))
  {
  }

  ghost function AfterAll(r: Run, p: Cluster, s: State, rounds: seq<Round>): State
    decreases |rounds|
  {
    if rounds == [] then s else AfterAll(r, p, After(r, p, s, rounds[0]), rounds[1..])
  }

  /** Whether the policy is synchronous, as the last of the rounds read it. */
  function LastSync(rounds: seq<Round>): bool
    requires rounds != []
  {
    rounds[|rounds| - 1].env.sync
  }

  lemma AfterFirst(r: Run, p: Cluster, s: State, rounds: seq<Round>)
    requires rounds != []
    ensures AfterAll(r, p, s, rounds) == AfterAll(r, p, After(r, p, s, rounds[0]), rounds[1..])
    ensures |rounds| == 1 ==> AfterAll(r, p, s, rounds) == After(r, p, s, rounds[0]) && LastSync(rounds) == rounds[0].env.sync
    ensures |rounds| > 1 ==> LastSync(rounds) == LastSync(rounds[1..])
  {
    if |rounds| == 1 { assert rounds[1..] == []; }
  }

  /** The view of a cluster equals its VRG, its VRG follows its MW, and all is well there. */
  predicate Fresh(s: State, c: Cluster) {
    && c in s.mw && c in s.live && c in s.view && s.view[c] == s.live[c] && s.live[c].spec == s.mw[c]
    && (s.mw[c].role == Primary ==>
          && Ready(s.view[c]) && DataSafe(s.view[c])
          && (s.mw[c].prepareForFinalSync ==> s.view[c].status.prepared)
          && (s.mw[c].runFinalSync ==> s.view[c].status.finalSynced))
    && (s.mw[c].role == Secondary ==> SettledSecondary(s.view[c]) && DataProtected(s.view[c]))
  }

  /** Both MWs carry the action: that of the target is Primary, and the other a plain Secondary that lists
      VolSync destinations exactly if the policy is asynchronous and the target has VolSync volumes. */
  predicate BothCarry(action: Action, sync: bool, t: Cluster, mw: map<Cluster, VRGSpec>, view: Views) {
    && t in mw && t in view && mw[t].role == Primary && mw[t].action == Some(action)
    && Peer(t) in mw && mw[Peer(t)].role == Secondary && mw[Peer(t)].action == Some(action)
    && !mw[Peer(t)].prepareForFinalSync && !mw[Peer(t)].runFinalSync
    && mw[Peer(t)].rdSpec == (!sync && view[t].status.volSync)
  }

  lemma CatchUpEffect(r: Run, s: State, c: Cluster, st: VRGStatus)
    requires FairCatchUp(r, s, c, st)
    ensures
      var n := CatchUp(r, s, c, st);
      && n == s.(live := n.live, view := n.view)
      && (c in s.mw ==> Fresh(n, c) && n.view[c].status == st)
      && (forall d | d in s.live && d != c :: d in n.live && n.live[d] == s.live[d])
      && (forall d | d in s.view && d != c :: d in n.view && n.view[d] == s.view[d])
  {
  }

  lemma CatchUpKeepsFlags(r: Run, s: State, c: Cluster, st: VRGStatus)
    requires FairCatchUp(r, s, c, st) && WorkIs(s.mw, c, Primary) && c in s.live
    ensures (s.live[c].status.prepared ==> st.prepared) && (s.live[c].status.finalSynced ==> st.finalSynced)
  {
  }

  lemma SnapshotIsView(view: Views, reachable: set<Cluster>)
    requires {DR1, DR2} <= reachable
    ensures Snapshot(view, reachable) == view
  {
    forall c | c in view ensures c in reachable { assert c == DR1 || c == DR2; }
  }

  // ---------------------------------------------------------------------------
  // Rounds in which all is well
  // ---------------------------------------------------------------------------

  /** A report that all is well with the VRG as its spec stands. */
  function WellReport(v: VRG): VRGStatus {
    var ok, was := Condition(true, v.generation), v.status;
    var primary := v.spec.role == Primary;
    VRGStatus(if primary then AsPrimary else AsSecondary, v.generation, ok, ok, ok, ok,
              was.prepared || (primary && v.spec.prepareForFinalSync),
              was.finalSynced || (primary && v.spec.runFinalSync),
              was.pvcs, was.volSync)
  }

  lemma WellReportIsFair(v: VRG)
    requires Honest(v)
    ensures FairReport(v, WellReport(v))
  {
  }

  function WellEnv(): Env { QuietEnv().(volSyncDisabled := false) }

  function ReportOf(r: Run, s: State, c: Cluster): VRGStatus {
    var a := Applying(r, s, c);
    if c in a.live then WellReport(a.live[c]) else NoStatus()
  }

  /** The reports of a round in which both clusters catch up and all is well. */
  function WellRound(r: Run, p: Cluster, s: State, env: Env, trace: seq<Act>): Round {
    var ofOld := ReportOf(r, s, Peer(p));
    Round(ofOld, ReportOf(r, CatchUp(r, s, Peer(p), ofOld), p), env, trace)
  }

  lemma CatchesUp(r: Run, s: State, c: Cluster)
    requires HonestViews(s.live)
    ensures FairCatchUp(r, s, c, ReportOf(r, s, c)) && HonestViews(CatchUp(r, s, c, ReportOf(r, s, c)).live)
  {
    if c in s.mw {
      AppliedFacts(s.live, c, s.mw[c]);
      var a := Applying(r, s, c);
      assert a.live == Applied(s.live, c, s.mw[c]) && c in a.live;
      WellReportIsFair(a.live[c]);
    }
  }

  lemma WellRoundCatchesUp(r: Run, p: Cluster, s: State, env: Env, trace: seq<Act>)
    requires HonestViews(s.live)
    ensures
      var rd := WellRound(r, p, s, env, trace);
      && FairCatchUp(r, s, Peer(p), rd.ofOld)
      && FairCatchUp(r, CatchUp(r, s, Peer(p), rd.ofOld), p, rd.ofTarget)
  {
    CatchesUp(r, s, Peer(p));
    CatchesUp(r, CatchUp(r, s, Peer(p), ReportOf(r, s, Peer(p))), p);
  }
}
