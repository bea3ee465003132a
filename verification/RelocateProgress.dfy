/** Relocation makes progress: from every state a relocation can be in between reconciles, six fair
    rounds complete it.  In a fair round every MW is applied, every VRG reports that all is well,
    every view catches up, and then one reconcile runs without an API failure. */
module RelocateProgress {
  import opened Options
  import opened DRTypes
  import opened PlacementDecisions
  import opened Protocol
  import opened Executions
  import opened RelocateSafety
  import opened RelocateOrder
  import opened PromotionStability
  import opened Orchestration
  import opened Rounds

  // ---------------------------------------------------------------------------
  // A relocation is never locked out by a cleanup that is still due
  // ---------------------------------------------------------------------------

  /** Until the target is seen Primary, the relocation is under way or PeerReady holds. */
  ghost predicate ProceedInv(p: Cluster, s: State) {
    SeenAs(s.view, p, Primary) || (MayProceed(s.status) && (s.hub.Busy? ==> MayProceed(s.hub.work)))
  }

  ghost predicate FullInv(r: Run, p: Cluster, s: State) { AllInv(r, p, s) && ProceedInv(p, s) }

  lemma StepKeepsProceed(r: Run, p: Cluster, s: State, e: Event)
    requires IsRelocation(r, p) && FullInv(r, p, s) && Enabled(r, s, e)
    ensures ProceedInv(p, Next(r, s, e))
  {
  }

  lemma StepKeepsFull(r: Run, p: Cluster, s: State, e: Event)
    requires IsRelocation(r, p) && FullInv(r, p, s) && Enabled(r, s, e) && SteadyStep(s, e)
    ensures FullInv(r, p, Next(r, s, e))
  {
    StepKeepsRoles(r, p, s, e);
    StepKeepsSync(r, p, s, e);
    StepKeepsStable(r, p, s, e);
    StepKeepsProceed(r, p, s, e);
  }

  lemma FullAfter(r: Run, p: Cluster, x: Execution, k: nat)
    requires SteadyRelocation(r, p, x) && k + 1 < |x.states| && FullInv(r, p, x.states[k])
    ensures FullInv(r, p, x.states[k + 1])
  {
    StepAt(r, p, x, k);
    StepKeepsFull(r, p, x.states[k], x.events[k]);
  }

  lemma {:induction false} FullAlways(r: Run, p: Cluster, x: Execution, k: nat)
    requires SteadyRelocation(r, p, x) && k < |x.states|
    ensures FullInv(r, p, x.states[k])
  {
    if k == 0 {
      RolesAlways(r, p, x, 0);
      SyncAlways(r, p, x, 0);
      StableAlways(r, p, x, 0);
    } else {
      FullAlways(r, p, x, k - 1);
      FullAfter(r, p, x, k - 1);
    }
  }

  // ---------------------------------------------------------------------------
  // Fair rounds
  // ---------------------------------------------------------------------------

  /** Nothing outside the protocol holds the reconcile up. */
  ghost predicate FairEnv(p: Cluster, env: Env, s: State) {
    && !env.faulty && {DR1, DR2} <= env.reachable && Consensus(env)
    && (env.sync ==> p in env.drClusters && !(Met(env.drClusters[p].fenced, env.drClusters[p].generation)))
    && env.volSyncReady && (env.volSyncDisabled && p in s.mw ==> !s.mw[p].rdSpec)
  }

  /** The reconcile of the round made allowed writes, and achieved what a fault-free one does. */
  ghost predicate FairRound(r: Run, p: Cluster, s: State, rd: Round) {
    var m := CaughtUp(r, p, s, rd);
    var x := CtxOf(r, m, rd.env);
    && FairCatchUp(r, s, Peer(p), rd.ofOld)
    && FairCatchUp(r, CatchUp(r, s, Peer(p), rd.ofOld), p, rd.ofTarget)
    && FairEnv(p, rd.env, m)
    && Legal(x, StoreOf(m), rd.trace) && Advances(x, p, StoreOf(m), Replay(x, StoreOf(m), rd.trace))
  }

  lemma CatchUpKeepsFull(r: Run, p: Cluster, s: State, c: Cluster, st: VRGStatus)
    requires IsRelocation(r, p) && FullInv(r, p, s) && s.hub.Idle? && FairCatchUp(r, s, c, st)
    ensures FullInv(r, p, CatchUp(r, s, c, st))
  {
    if c in s.mw {
      var s1 := Applying(r, s, c);
      StepKeepsFull(r, p, s, Apply(c));
      StepKeepsFull(r, p, s1, Report(c, st));
      StepKeepsFull(r, p, Next(r, s1, Report(c, st)), Refresh(c));
    }
  }

  lemma CaughtUpFacts(r: Run, p: Cluster, s: State, rd: Round)
    requires IsRelocation(r, p) && FullInv(r, p, s) && s.hub.Idle? && FairRound(r, p, s, rd)
    ensures
      var m, q := CaughtUp(r, p, s, rd), Peer(p);
      && FullInv(r, p, m) && m == s.(live := m.live, view := m.view)
      && Fresh(m, q) && (p in m.mw ==> Fresh(m, p)) && m.view[q].status == rd.ofOld
  {
    var q := Peer(p);
    var s1 := CatchUp(r, s, q, rd.ofOld);
    CatchUpKeepsFull(r, p, s, q, rd.ofOld);
    CatchUpEffect(r, s, q, rd.ofOld);
    CatchUpKeepsFull(r, p, s1, p, rd.ofTarget);
    CatchUpEffect(r, s1, p, rd.ofTarget);
  }

  lemma {:induction false} ReplayKeepsFull(r: Run, p: Cluster, s: State, x: Ctx, n: Store, trace: seq<Act>)
    requires IsRelocation(r, p) && Legal(x, n, trace) && FullInv(r, p, InHub(s, x, n))
    ensures FullInv(r, p, InHub(s, x, Replay(x, n, trace)))
  {
    if trace != [] {
      var k := |trace| - 1;
      LegalFront(x, n, trace);
      ReplayKeepsFull(r, p, s, x, n, trace[..k]);
      var h := InHub(s, x, Replay(x, n, trace[..k]));
      assert InMemory(h) == Replay(x, n, trace[..k]);
      StepKeepsFull(r, p, h, Write(trace[k]));
      assert Next(r, h, Write(trace[k])) == InHub(s, x, Replay(x, n, trace));
    }
  }

  lemma AfterKeepsFull(r: Run, p: Cluster, s: State, rd: Round)
    requires IsRelocation(r, p) && FullInv(r, p, s) && s.hub.Idle? && FairRound(r, p, s, rd)
    ensures FullInv(r, p, After(r, p, s, rd)) && After(r, p, s, rd).hub.Idle?
  {
    var m := CaughtUp(r, p, s, rd);
    CaughtUpFacts(r, p, s, rd);
    var x, st := CtxOf(r, m, rd.env), StoreOf(m);
    StepKeepsFull(r, p, m, Begin(rd.env));
    assert Next(r, m, Begin(rd.env)) == InHub(m, x, st);
    ReplayKeepsFull(r, p, m, x, st, rd.trace);
    StepKeepsFull(r, p, InHub(m, x, Replay(x, st, rd.trace)), Stop(true));
  }

  // ---------------------------------------------------------------------------
  // The measure
  // ---------------------------------------------------------------------------

  /** How far the relocation has to go: final sync not prepared, prepared, done; old home demoted;
      target promoted, with replication destinations left to clear or without. */
  function Rank(p: Cluster, mw: map<Cluster, VRGSpec>, live: Views): (rank: nat)
    ensures 1 <= rank <= 6
  {
    var q := Peer(p);
    if WorkIs(mw, p, Primary) then (if mw[p].rdSpec then 2 else 1)
    else if q !in mw || q !in live || mw[q].role == Secondary then 3
    else if !(live[q].status.prepared || mw[q].prepareForFinalSync) then 6
    else if !(live[q].status.finalSynced || mw[q].runFinalSync) then 5
    else 4
  }

  predicate Done(r: Run, p: Cluster, sync: bool, s: State) {
    && s.status.phase == Relocated && s.status.progression == Completed && Tallied(s.status)
    && Home(r.kind, s.decisions) == Some(p) && BothCarry(Relocate, sync, p, s.mw, s.view)
  }

  /** A caught-up system with a reconcile that finds nothing in its way. */
  ghost predicate Poised(r: Run, p: Cluster, m: State, x: Ctx) {
    && IsRelocation(r, p) && FullInv(r, p, m) && Fresh(m, Peer(p)) && (p in m.mw ==> Fresh(m, p))
    && x.spec == r.spec && x.kind == r.kind && x.views == m.view && FairEnv(p, x.env, m)
  }

  lemma LeavingAdvances(r: Run, p: Cluster, m: State, x: Ctx, n: Store)
    requires Poised(r, p, m, x) && Advances(x, p, StoreOf(m), n) && WorkIs(m.mw, Peer(p), Primary)
    ensures !WorkIs(m.mw, p, Primary) && Rank(p, n.mw, m.live) < Rank(p, m.mw, m.live)
  {
    assert !WorkIs(m.mw, p, Primary);
    assert CanLeave(x, p) && MayProceed(m.status) && Readable(x, m.decisions);
    assert Leaves(x, p, StoreOf(m), n);
  }

  lemma SettledAdvances(r: Run, p: Cluster, m: State, x: Ctx, n: Store)
    requires Poised(r, p, m, x) && Advances(x, p, StoreOf(m), n)
    requires WorkIs(m.mw, Peer(p), Secondary) && !WorkIs(m.mw, p, Primary)
    ensures WorkIs(n.mw, p, Primary)
  {
    assert MayProceed(m.status);
    assert Settles(x, p, StoreOf(m), n);
  }

  lemma ArrivedAdvances(r: Run, p: Cluster, m: State, x: Ctx, n: Store)
    requires Poised(r, p, m, x) && Advances(x, p, StoreOf(m), n) && WorkIs(m.mw, p, Primary)
    ensures WorkIs(n.mw, p, Primary) && !n.mw[p].rdSpec
    ensures !m.mw[p].rdSpec ==> Finished(x, p, n)
  {
    assert WorkIs(m.mw, Peer(p), Secondary);
    assert Arrives(x, p, StoreOf(m), n);
  }

  lemma PoisedForRound(r: Run, p: Cluster, s: State, rd: Round)
    requires IsRelocation(r, p) && FullInv(r, p, s) && s.hub.Idle? && FairRound(r, p, s, rd)
    ensures
      var m := CaughtUp(r, p, s, rd);
      && Poised(r, p, m, CtxOf(r, m, rd.env)) && m.mw == s.mw
      && Rank(p, m.mw, m.live) <= Rank(p, s.mw, s.live)
      && Advances(CtxOf(r, m, rd.env), p, StoreOf(m), WorkOf(r, p, s, rd))
  {
    CaughtUpFacts(r, p, s, rd);
    if WorkIs(s.mw, Peer(p), Primary) { CatchUpKeepsFlags(r, s, Peer(p), rd.ofOld); }
    SnapshotIsView(CaughtUp(r, p, s, rd).view, rd.env.reachable);
  }

  /** The store of a relocation that is done. */
  predicate Finished(x: Ctx, p: Cluster, n: Store) {
    && n.status.phase == Relocated && n.status.progression == Completed && Tallied(n.status)
    && Home(x.kind, n.decisions) == Some(p) && BothCarry(Relocate, x.env.sync, p, n.mw, x.views)
  }

  /** A poised reconcile lowers the measure, and at its lowest finishes. */
  lemma PoisedLowersRank(r: Run, p: Cluster, m: State, x: Ctx, n: Store)
    requires Poised(r, p, m, x) && Advances(x, p, StoreOf(m), n)
    ensures Rank(p, m.mw, m.live) == 1 ==> Rank(p, n.mw, m.live) == 1 && Finished(x, p, n)
    ensures Rank(p, m.mw, m.live) > 1 ==> Rank(p, n.mw, m.live) < Rank(p, m.mw, m.live)
  {
    if WorkIs(m.mw, p, Primary) {
      ArrivedAdvances(r, p, m, x, n);
    } else if WorkIs(m.mw, Peer(p), Secondary) {
      SettledAdvances(r, p, m, x, n);
    } else {
      LeavingAdvances(r, p, m, x, n);
    }
  }

  /** Every fair round lowers the measure, and at its lowest the relocation completes. */
  lemma RoundLowersRank(r: Run, p: Cluster, s: State, rd: Round)
    requires IsRelocation(r, p) && FullInv(r, p, s) && s.hub.Idle? && FairRound(r, p, s, rd)
    ensures
      var n := After(r, p, s, rd);
      && (Rank(p, s.mw, s.live) == 1 ==> Rank(p, n.mw, n.live) == 1 && Done(r, p, rd.env.sync, n))
      && (Rank(p, s.mw, s.live) > 1 ==> Rank(p, n.mw, n.live) < Rank(p, s.mw, s.live))
  {
    var m, work := CaughtUp(r, p, s, rd), WorkOf(r, p, s, rd);
    PoisedForRound(r, p, s, rd);
    PoisedLowersRank(r, p, m, CtxOf(r, m, rd.env), work);
    AfterFields(r, p, s, rd);
  }

  // ---------------------------------------------------------------------------
  // The theorem
  // ---------------------------------------------------------------------------

  ghost predicate FairRounds(r: Run, p: Cluster, s: State, rounds: seq<Round>)
    decreases |rounds|
  {
    rounds == [] || (FairRound(r, p, s, rounds[0]) && FairRounds(r, p, After(r, p, s, rounds[0]), rounds[1..]))
  }

  lemma {:induction false} RoundsComplete(r: Run, p: Cluster, s: State, rounds: seq<Round>)
    requires IsRelocation(r, p) && FullInv(r, p, s) && s.hub.Idle? && FairRounds(r, p, s, rounds)
    requires |rounds| >= Rank(p, s.mw, s.live)
    ensures Done(r, p, LastSync(rounds), AfterAll(r, p, s, rounds))
    decreases |rounds|
  {
    var n := After(r, p, s, rounds[0]);
    RoundLowersRank(r, p, s, rounds[0]);
    AfterKeepsFull(r, p, s, rounds[0]);
    AfterFirst(r, p, s, rounds);
    if |rounds| > 1 {
      RoundsComplete(r, p, n, rounds[1..]);
    }
  }

  /** From wherever a relocation stands between two reconciles, six or more fair rounds leave it
      Relocated, Completed, PeerReady, and with the placement naming the target. */
  lemma RelocationCompletes(r: Run, p: Cluster, x: Execution, k: nat, rounds: seq<Round>)
    requires SteadyRelocation(r, p, x) && k < |x.states| && x.states[k].hub.Idle?
    requires FairRounds(r, p, x.states[k], rounds) && |rounds| >= 6
    ensures Done(r, p, LastSync(rounds), AfterAll(r, p, x.states[k], rounds))
  {
    FullAlways(r, p, x, k);
    RoundsComplete(r, p, x.states[k], rounds);
  }
}
