/** Failover makes progress: from every state a failover can be in between reconciles, four fair rounds
    complete it, and the reconcile code runs such rounds. */
module FailoverProgress {
  import opened Options
  import opened DRTypes
  import opened PlacementDecisions
  import opened Protocol
  import opened Executions
  import opened RelocateSafety
  import opened FailoverSafety
  import opened Orchestration
  import opened Rounds

  /** What holds throughout a failover whose target has an MW. */
  ghost predicate FailoverInv(r: Run, t: Cluster, s: State) {
    PromotionInv(r, t, s) && PlacementInv(r, t, s) && t in s.mw
  }

  lemma StepKeepsFailover(r: Run, t: Cluster, s: State, e: Event)
    requires IsFailover(r, t) && FailoverInv(r, t, s) && Enabled(r, s, e)
    ensures FailoverInv(r, t, Next(r, s, e))
  {
    StepKeepsPromotionInv(r, t, s, e);
    if e.Write? {
      WriteDecisions(r, t, s, e.act);
      RolesAfter(s.hub.ctx, s.mw, e.act, t);
      assert e.act.SetStatus? || Next(r, s, e).mw == WriteWork(s.hub.ctx, s.mw, e.act);
    } else {
      LookFacts(r, s, e, t);
    }
  }

  lemma {:induction false} FailoverAlways(r: Run, t: Cluster, x: Execution, k: nat)
    requires FailoverRun(r, t, x) && t in x.states[0].mw && k < |x.states|
    ensures FailoverInv(r, t, x.states[k])
  {
    if k == 0 {
      PromotionAlways(r, t, x, 0);
      HomeOfOne(r.kind, x.states[0].decisions);
    } else {
      FailoverAlways(r, t, x, k - 1);
      assert StepOf(r, x, k - 1);
      StepKeepsFailover(r, t, x.states[k - 1], x.events[k - 1]);
    }
  }

  // ---------------------------------------------------------------------------
  // Fair rounds
  // ---------------------------------------------------------------------------

  /** Nothing outside the protocol holds the reconcile up: in particular the prerequisites are met for
      the cluster to fail away from, as long as the target is not promoted. */
  ghost predicate FairFailoverCtx(t: Cluster, x: Ctx, s: Store) {
    && !x.env.faulty && {DR1, DR2} <= x.env.reachable && Consensus(x.env)
    && (!WorkIs(s.mw, t, Primary) ==>
          x.home.Some? && Prerequisites(x, t, x.home.value))
    && x.env.volSyncReady && (x.env.volSyncDisabled && t in s.mw ==> !s.mw[t].rdSpec)
  }

  ghost predicate FairFailoverRound(r: Run, t: Cluster, s: State, rd: Round) {
    var m := CaughtUp(r, t, s, rd);
    var x := CtxOf(r, m, rd.env);
    && FairCatchUp(r, s, Peer(t), rd.ofOld)
    && FairCatchUp(r, CatchUp(r, s, Peer(t), rd.ofOld), t, rd.ofTarget)
    && FairFailoverCtx(t, x, StoreOf(m))
    && Legal(x, StoreOf(m), rd.trace) && FailoverAdvances(x, t, StoreOf(m), Replay(x, StoreOf(m), rd.trace))
  }

  lemma CatchUpKeepsFailover(r: Run, t: Cluster, s: State, c: Cluster, st: VRGStatus)
    requires IsFailover(r, t) && FailoverInv(r, t, s) && s.hub.Idle? && FairCatchUp(r, s, c, st)
    ensures FailoverInv(r, t, CatchUp(r, s, c, st))
  {
    if c in s.mw {
      var s1 := Applying(r, s, c);
      StepKeepsFailover(r, t, s, Apply(c));
      StepKeepsFailover(r, t, s1, Report(c, st));
      StepKeepsFailover(r, t, Next(r, s1, Report(c, st)), Refresh(c));
    }
  }

  lemma CaughtUpFailover(r: Run, t: Cluster, s: State, rd: Round)
    requires IsFailover(r, t) && FailoverInv(r, t, s) && s.hub.Idle?
    requires FairCatchUp(r, s, Peer(t), rd.ofOld) && FairCatchUp(r, CatchUp(r, s, Peer(t), rd.ofOld), t, rd.ofTarget)
    ensures
      var m := CaughtUp(r, t, s, rd);
      FailoverInv(r, t, m) && m == s.(live := m.live, view := m.view) && Fresh(m, t) && Fresh(m, Peer(t))
  {
    var o := Peer(t);
    var s1 := CatchUp(r, s, o, rd.ofOld);
    CatchUpKeepsFailover(r, t, s, o, rd.ofOld);
    CatchUpEffect(r, s, o, rd.ofOld);
    CatchUpKeepsFailover(r, t, s1, t, rd.ofTarget);
    CatchUpEffect(r, s1, t, rd.ofTarget);
  }

  lemma {:induction false} ReplayKeepsFailover(r: Run, t: Cluster, s: State, x: Ctx, n: Store, trace: seq<Act>)
    requires IsFailover(r, t) && Legal(x, n, trace) && FailoverInv(r, t, InHub(s, x, n))
    ensures FailoverInv(r, t, InHub(s, x, Replay(x, n, trace)))
  {
    if trace != [] {
      var k := |trace| - 1;
      LegalFront(x, n, trace);
      ReplayKeepsFailover(r, t, s, x, n, trace[..k]);
      var h := InHub(s, x, Replay(x, n, trace[..k]));
      assert InMemory(h) == Replay(x, n, trace[..k]);
      StepKeepsFailover(r, t, h, Write(trace[k]));
      assert Next(r, h, Write(trace[k])) == InHub(s, x, Replay(x, n, trace));
    }
  }

  lemma AfterKeepsFailover(r: Run, t: Cluster, s: State, rd: Round)
    requires IsFailover(r, t) && FailoverInv(r, t, s) && s.hub.Idle? && FairFailoverRound(r, t, s, rd)
    ensures FailoverInv(r, t, After(r, t, s, rd)) && After(r, t, s, rd).hub.Idle?
  {
    var m := CaughtUp(r, t, s, rd);
    CaughtUpFailover(r, t, s, rd);
    var x, st := CtxOf(r, m, rd.env), StoreOf(m);
    StepKeepsFailover(r, t, m, Begin(rd.env));
    assert Next(r, m, Begin(rd.env)) == InHub(m, x, st);
    ReplayKeepsFailover(r, t, m, x, st, rd.trace);
    StepKeepsFailover(r, t, InHub(m, x, Replay(x, st, rd.trace)), Stop(true));
  }

  // ---------------------------------------------------------------------------
  // The measure
  // ---------------------------------------------------------------------------

  /** How far the failover has to go: target not promoted, promoted with replication destinations left
      to clear, old home still Primary, old home demoted. */
  function Rank(t: Cluster, mw: map<Cluster, VRGSpec>): (rank: nat)
    ensures 1 <= rank <= 4
  {
    if !WorkIs(mw, t, Primary) then 4
    else if mw[t].rdSpec then 3
    else if WorkIs(mw, Peer(t), Primary) then 2
    else 1
  }

  predicate Done(r: Run, t: Cluster, sync: bool, s: State) {
    && s.status.phase == FailedOver && s.status.progression == Completed && Tallied(s.status)
    && Home(r.kind, s.decisions) == Some(t) && BothCarry(Failover, sync, t, s.mw, s.view)
  }

  ghost predicate Poised(r: Run, t: Cluster, m: State, x: Ctx) {
    && IsFailover(r, t) && FailoverInv(r, t, m) && Fresh(m, t) && Fresh(m, Peer(t))
    && x.spec == r.spec && x.kind == r.kind && x.views == m.view && FairFailoverCtx(t, x, StoreOf(m))
  }

  lemma DueAdvances(r: Run, t: Cluster, m: State, x: Ctx, n: Store)
    requires Poised(r, t, m, x) && FailoverAdvances(x, t, StoreOf(m), n) && !WorkIs(m.mw, t, Primary)
    ensures WorkIs(n.mw, t, Primary)
  {
    assert FailoverDue(x, t, StoreOf(m));
    assert FailsOver(x, t, StoreOf(m), n);
  }

  lemma ArrivedAdvances(r: Run, t: Cluster, m: State, x: Ctx, n: Store)
    requires Poised(r, t, m, x) && FailoverAdvances(x, t, StoreOf(m), n) && WorkIs(m.mw, t, Primary)
    ensures WorkIs(n.mw, t, Primary) && !n.mw[t].rdSpec
    ensures !m.mw[t].rdSpec ==> WorkIs(n.mw, Peer(t), Secondary)
    ensures !m.mw[t].rdSpec && WorkIs(m.mw, Peer(t), Secondary) ==> Finished(x, t, n)
  {
    assert FailoverArrives(x, t, StoreOf(m), n);
    assert WorkIs(m.mw, Peer(t), Secondary) ==> CleanupDue(x, t, StoreOf(m));
  }

  lemma PoisedForRound(r: Run, t: Cluster, s: State, rd: Round)
    requires IsFailover(r, t) && FailoverInv(r, t, s) && s.hub.Idle? && FairFailoverRound(r, t, s, rd)
    ensures
      var m := CaughtUp(r, t, s, rd);
      && Poised(r, t, m, CtxOf(r, m, rd.env)) && m.mw == s.mw
      && FailoverAdvances(CtxOf(r, m, rd.env), t, StoreOf(m), WorkOf(r, t, s, rd))
  {
    CaughtUpFailover(r, t, s, rd);
    SnapshotIsView(CaughtUp(r, t, s, rd).view, rd.env.reachable);
  }

  /** The store of a failover that is done. */
  predicate Finished(x: Ctx, t: Cluster, n: Store) {
    && n.status.phase == FailedOver && n.status.progression == Completed && Tallied(n.status)
    && Home(x.kind, n.decisions) == Some(t) && BothCarry(Failover, x.env.sync, t, n.mw, x.views)
  }

  /** A poised reconcile lowers the measure, and at its lowest finishes. */
  lemma PoisedLowersRank(r: Run, t: Cluster, m: State, x: Ctx, n: Store)
    requires Poised(r, t, m, x) && FailoverAdvances(x, t, StoreOf(m), n)
    ensures Rank(t, m.mw) == 1 ==> Rank(t, n.mw) == 1 && Finished(x, t, n)
    ensures Rank(t, m.mw) > 1 ==> Rank(t, n.mw) < Rank(t, m.mw)
  {
    if WorkIs(m.mw, t, Primary) {
      ArrivedAdvances(r, t, m, x, n);
    } else {
      DueAdvances(r, t, m, x, n);
    }
  }

  /** Every fair round lowers the measure, and at its lowest the failover completes. */
  lemma RoundLowersRank(r: Run, t: Cluster, s: State, rd: Round)
    requires IsFailover(r, t) && FailoverInv(r, t, s) && s.hub.Idle? && FairFailoverRound(r, t, s, rd)
    ensures
      var n := After(r, t, s, rd);
      && (Rank(t, s.mw) == 1 ==> Rank(t, n.mw) == 1 && Done(r, t, rd.env.sync, n))
      && (Rank(t, s.mw) > 1 ==> Rank(t, n.mw) < Rank(t, s.mw))
  {
    var m := CaughtUp(r, t, s, rd);
    PoisedForRound(r, t, s, rd);
    PoisedLowersRank(r, t, m, CtxOf(r, m, rd.env), WorkOf(r, t, s, rd));
    AfterFields(r, t, s, rd);
  }

  // ---------------------------------------------------------------------------
  // The theorem
  // ---------------------------------------------------------------------------

  ghost predicate FairFailoverRounds(r: Run, t: Cluster, s: State, rounds: seq<Round>)
    decreases |rounds|
  {
    rounds == [] || (FairFailoverRound(r, t, s, rounds[0]) && FairFailoverRounds(r, t, After(r, t, s, rounds[0]), rounds[1..]))
  }

  lemma {:induction false} RoundsComplete(r: Run, t: Cluster, s: State, rounds: seq<Round>)
    requires IsFailover(r, t) && FailoverInv(r, t, s) && s.hub.Idle? && FairFailoverRounds(r, t, s, rounds)
    requires |rounds| >= Rank(t, s.mw)
    ensures Done(r, t, LastSync(rounds), AfterAll(r, t, s, rounds))
    decreases |rounds|
  {
    var n := After(r, t, s, rounds[0]);
    RoundLowersRank(r, t, s, rounds[0]);
    AfterKeepsFailover(r, t, s, rounds[0]);
    AfterFirst(r, t, s, rounds);
    if |rounds| > 1 {
      RoundsComplete(r, t, n, rounds[1..]);
    }
  }

  /** From wherever a failover stands between two reconciles, four or more fair rounds leave it FailedOver,
      Completed and PeerReady, with the placement naming the target and the old home demoted. */
  lemma FailoverCompletes(r: Run, t: Cluster, x: Execution, k: nat, rounds: seq<Round>)
    requires FailoverRun(r, t, x) && t in x.states[0].mw && k < |x.states| && x.states[k].hub.Idle?
    requires FairFailoverRounds(r, t, x.states[k], rounds) && |rounds| >= 4
    ensures Done(r, t, LastSync(rounds), AfterAll(r, t, x.states[k], rounds))
  {
    FailoverAlways(r, t, x, k);
    RoundsComplete(r, t, x.states[k], rounds);
  }
}
