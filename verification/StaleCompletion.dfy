/** The code itself completes a failover without cleanup once the stored PeerReady is stale: the runs of
    `FailoverCompletion`, with every reconcile made by `RunFailover`. */
module StaleCompletion {
  import opened Options
  import opened DRTypes
  import opened PlacementDecisions
  import opened Protocol
  import opened Executions
  import opened RelocateSafety
  import opened FailoverSafety
  import opened Orchestration
  import opened FailoverCompletion
  import FP = FailoverProgress
  import FW = FailoverWitness

  lemma {:induction false} ExecutionKeepsInv(r: Run, t: Cluster, x: Execution, k: nat)
    requires IsFailover(r, t) && IsExecution(r, x) && FP.FailoverInv(r, t, x.states[0]) && k < |x.states|
    ensures FP.FailoverInv(r, t, x.states[k])
  {
    if k > 0 {
      ExecutionKeepsInv(r, t, x, k - 1);
      assert StepOf(r, x, k - 1);
      FP.StepKeepsFailover(r, t, x.states[k - 1], x.events[k - 1]);
    }
  }

  ghost predicate AllSaved(x: Execution) {
    forall i | 0 <= i < |x.events| :: x.events[i] != Stop(false)
  }

  lemma {:induction false} AnnouncedBy(r: Run, x: Execution, k: nat)
    requires IsExecution(r, x) && AllSaved(x) && k < |x.states|
    requires InForce(x.states[0]).progression != Completed && InForce(x.states[k]).progression == Completed
    ensures exists j: nat :: j < k && Announces(x, j)
  {
    if InForce(x.states[k - 1]).progression == Completed {
      AnnouncedBy(r, x, k - 1);
    } else {
      assert StepOf(r, x, k - 1);
      assert x.events[k - 1] != Stop(false);
      assert Announces(x, k - 1);
    }
  }

  /** The state after a reconcile whose status is saved. */
  function Saved(m: State, work: Store): State {
    m.(mw := work.mw, decisions := work.decisions,
       status := work.status.(peerReady := work.status.peerReady.(current := true)))
  }

  /** What one round, in which the target catches up and then one reconcile runs, is made of. */
  ghost predicate IsRound(r: Run, t: Cluster, s: State, n: State, x: Execution) {
    && IsExecution(r, x) && x.states[0] == s && Last(x) == n && Blind(x, t) && AllSaved(x)
    && FP.FailoverInv(r, t, n) && n.hub.Idle?
  }

  lemma SeenKeepsInv(r: Run, t: Cluster, s: State, ready: bool)
    requires IsFailover(r, t) && FP.FailoverInv(r, t, s) && s.hub.Idle? && WorkIs(s.mw, t, Primary)
    ensures FP.FailoverInv(r, t, TargetSeen(s, t, ready))
  {
    var x := TargetCatchesUp(r, t, s, ready);
    ExecutionKeepsInv(r, t, x, |x.events|);
  }

  lemma ReconcileBlind(r: Run, t: Cluster, m: State, trace: seq<Act>, work: Store) returns (x: Execution)
    requires IsFailover(r, t) && FP.FailoverInv(r, t, m) && m.hub.Idle?
    requires Reached(CtxOf(r, m, TargetOnly(t)), StoreOf(m), trace, work)
    ensures IsRound(r, t, m, Saved(m, work), x)
  {
    x := ReconcileIsExecution(r, m, TargetOnly(t), trace, true);
    assert Peer(t) !in CtxOf(r, m, TargetOnly(t)).views;
    ExecutionKeepsInv(r, t, x, |x.events|);
  }

  lemma JoinRounds(r: Run, t: Cluster, s: State, m: State, n: State, x: Execution, y: Execution) returns (z: Execution)
    requires IsExecution(r, x) && x.states[0] == s && Last(x) == m && Blind(x, t) && AllSaved(x)
    requires IsRound(r, t, m, n, y)
    ensures IsRound(r, t, s, n, z) && z.events == x.events + y.events && z.states == x.states + y.states[1..]
  {
    z := Join(r, x, y);
    BlindJoin(x, y, z, t);
  }

  /** One round of the code in which only the target is reached. */
  method TargetRound(r: Run, t: Cluster, s: State, ready: bool) returns (work: Store, ghost x: Execution)
    requires IsFailover(r, t) && FP.FailoverInv(r, t, s) && s.hub.Idle? && WorkIs(s.mw, t, Primary)
    ensures IsRound(r, t, s, Saved(TargetSeen(s, t, ready), work), x)
    ensures var m := TargetSeen(s, t, ready); FailoverAdvances(CtxOf(r, m, TargetOnly(t)), t, StoreOf(m), work)
  {
    var m := TargetSeen(s, t, ready);
    SeenKeepsInv(r, t, s, ready);
    ghost var trace;
    work, trace := FW.Reconcile(r, t, m, TargetOnly(t));
    ghost var first := TargetCatchesUp(r, t, s, ready);
    ghost var second := ReconcileBlind(r, t, m, trace, work);
    x := JoinRounds(r, t, s, m, Saved(m, work), first, second);
  }

  /** What the three rounds do: a target that is not ready leaves the stale PeerReady to be saved for this
      generation; a ready one loses its destinations; the next round completes. */
  lemma WaitingRound(r: Run, t: Cluster, s: State, work: Store)
    requires IsFailover(r, t) && FP.FailoverInv(r, t, s) && WorkIs(s.mw, t, Primary) && s.hub.Idle?
    requires s.status.peerReady.holds && s.status.peerReady.success
    requires var m := TargetSeen(s, t, false); FailoverAdvances(CtxOf(r, m, TargetOnly(t)), t, StoreOf(m), work)
    ensures var n := Saved(TargetSeen(s, t, false), work);
            Tallied(n.status) && n.status.progression == WaitForReadiness && WorkIs(n.mw, t, Primary)
  {
    TargetVRGFacts(s, t, false);
    var m := TargetSeen(s, t, false);
    var x := CtxOf(r, m, TargetOnly(t));
    assert x.views[t] == TargetVRG(s, t, false);
    assert FailoverWaits(x, t, StoreOf(m), work);
  }

  lemma ReadyRound(r: Run, t: Cluster, s: State, work: Store)
    requires IsFailover(r, t) && FP.FailoverInv(r, t, s) && WorkIs(s.mw, t, Primary) && s.hub.Idle? && Tallied(s.status)
    requires var m := TargetSeen(s, t, true); FailoverAdvances(CtxOf(r, m, TargetOnly(t)), t, StoreOf(m), work)
    ensures
      var n := Saved(TargetSeen(s, t, true), work);
      && Tallied(n.status) && WorkIs(n.mw, t, Primary) && !n.mw[t].rdSpec
      && (!s.mw[t].rdSpec ==> n.status.progression == Completed)
  {
    TargetVRGFacts(s, t, true);
    var m := TargetSeen(s, t, true);
    var x := CtxOf(r, m, TargetOnly(t));
    assert x.views[t] == TargetVRG(s, t, true);
    assert FailoverArrives(x, t, StoreOf(m), work);
  }

  lemma AnnouncedLater(x: Execution, y: Execution, z: Execution)
    requires |x.states| == |x.events| + 1 && |y.states| == |y.events| + 1 && Last(x) == y.states[0]
    requires z.states == x.states + y.states[1..] && z.events == x.events + y.events
    requires exists j: nat :: j < |y.events| && Announces(y, j)
    ensures exists j: nat :: |x.events| <= j < |z.events| && Announces(z, j)
  {
    var j: nat :| j < |y.events| && Announces(y, j);
    assert z.events[|x.events| + j] == y.events[j] && z.states[|x.events| + j] == y.states[j];
    assert Announces(z, |x.events| + j);
  }

  lemma RoundAnnounces(r: Run, t: Cluster, s: State, n: State, x: Execution)
    requires IsRound(r, t, s, n, x) && s.hub.Idle? && s.status.progression != Completed && n.status.progression == Completed
    ensures exists k: nat :: k < |x.events| && Announces(x, k)
  {
    AnnouncedBy(r, x, |x.events|);
  }

  /** A round of the code with a ready target and a tallied status. */
  method TalliedRound(r: Run, t: Cluster, s: State) returns (n: State, ghost x: Execution)
    requires IsFailover(r, t) && FP.FailoverInv(r, t, s) && s.hub.Idle? && WorkIs(s.mw, t, Primary) && Tallied(s.status)
    ensures IsRound(r, t, s, n, x) && Tallied(n.status) && WorkIs(n.mw, t, Primary) && !n.mw[t].rdSpec
    ensures !s.mw[t].rdSpec ==> n.status.progression == Completed
    ensures Peer(t) in s.live ==> Peer(t) in n.live && n.live[Peer(t)] == s.live[Peer(t)]
  {
    var work;
    work, x := TargetRound(r, t, s, true);
    ReadyRound(r, t, s, work);
    n := Saved(TargetSeen(s, t, true), work);
  }

  /** Two rounds of the code with a ready target and a tallied status announce completion. */
  method CompleteStale(r: Run, t: Cluster, s: State) returns (n: State, ghost x: Execution)
    requires IsFailover(r, t) && FP.FailoverInv(r, t, s) && s.hub.Idle? && WorkIs(s.mw, t, Primary)
    requires Tallied(s.status) && s.status.progression != Completed
    ensures IsRound(r, t, s, n, x) && n.status.progression == Completed
    ensures exists k: nat :: k < |x.events| && Announces(x, k)
    ensures Peer(t) in s.live ==> Peer(t) in n.live && n.live[Peer(t)] == s.live[Peer(t)]
  {
    ghost var first, second;
    var s1;
    s1, first := TalliedRound(r, t, s);
    n, second := TalliedRound(r, t, s1);
    x := JoinRounds(r, t, s, s1, n, first, second);
    RoundAnnounces(r, t, s, n, x);
  }

  /** A round of the code with a target that is not ready yet. */
  method UnreadyRound(r: Run, t: Cluster, s: State) returns (n: State, ghost x: Execution)
    requires IsFailover(r, t) && FP.FailoverInv(r, t, s) && s.hub.Idle? && WorkIs(s.mw, t, Primary)
    requires s.status.peerReady.holds && s.status.peerReady.success
    ensures IsRound(r, t, s, n, x) && Tallied(n.status) && WorkIs(n.mw, t, Primary)
    ensures n.status.progression == WaitForReadiness
    ensures Peer(t) in s.live ==> Peer(t) in n.live && n.live[Peer(t)] == s.live[Peer(t)]
  {
    var work;
    work, x := TargetRound(r, t, s, false);
    WaitingRound(r, t, s, work);
    n := Saved(TargetSeen(s, t, false), work);
  }

  /** From every state in which the target is promoted and the stored status says PeerReady, the code
      announces completion without ever looking at the old home. */
  method RunStale(r: Run, t: Cluster, s: State) returns (n: State, ghost x: Execution)
    requires IsFailover(r, t) && FP.FailoverInv(r, t, s) && s.hub.Idle? && WorkIs(s.mw, t, Primary)
    requires s.status.peerReady.holds && s.status.peerReady.success
    ensures IsRound(r, t, s, n, x) && n.status.progression == Completed
    ensures exists k: nat :: k < |x.events| && Announces(x, k)
    ensures Peer(t) in s.live ==> Peer(t) in n.live && n.live[Peer(t)] == s.live[Peer(t)]
  {
    ghost var first, second;
    var s1;
    s1, first := UnreadyRound(r, t, s);
    n, second := CompleteStale(r, t, s1);
    x := JoinRounds(r, t, s, s1, n, first, second);
    AnnouncedLater(first, second, x);
  }

  /** The first reconcile of the code promotes the target; its status is lost. */
  method PromoteByCode(r: Run, t: Cluster, s: State) returns (n: State, ghost x: Execution)
    requires IsFailover(r, t) && Settled(r, Peer(t), s) && t in s.live && SettledSecondary(s.live[t])
    ensures IsExecution(r, x) && x.states[0] == s && Last(x) == n && n.hub.Idle? && n.status == s.status && n.live == s.live
    ensures WorkIs(n.mw, t, Primary) && FP.FailoverInv(r, t, n) && !OnceCleaned(x, t, |x.events|)
  {
    SettledInv(r, t, s);
    NothingHinders(r, t, s);
    var work;
    ghost var trace;
    work, trace := FW.Reconcile(r, t, s, QuietEnv());
    FailsOverFromRest(r, t, s, work);
    n := s.(mw := work.mw, decisions := work.decisions);
    x := ReconcileIsExecution(r, s, QuietEnv(), trace, false);
    ExecutionKeepsInv(r, t, x, |x.events|);
  }

  lemma SettledInv(r: Run, t: Cluster, s: State)
    requires IsFailover(r, t) && Settled(r, Peer(t), s) && t in s.live
    ensures FP.FailoverInv(r, t, s)
  {
    FP.FailoverAlways(r, t, Execution([s], []), 0);
  }

  lemma FailsOverFromRest(r: Run, t: Cluster, s: State, work: Store)
    requires IsFailover(r, t) && Settled(r, Peer(t), s) && t in s.live && SettledSecondary(s.live[t])
    requires FailoverAdvances(CtxOf(r, s, QuietEnv()), t, StoreOf(s), work)
    ensures WorkIs(work.mw, t, Primary)
  {
    NothingHinders(r, t, s);
    HomeOfOne(r.kind, s.decisions);
    var x := CtxOf(r, s, QuietEnv());
    assert FailoverDue(x, t, StoreOf(s));
    assert FailsOver(x, t, StoreOf(s), work);
  }

  /** One lost status is enough, with the code: from every settled start with a settled target and a DRPC
      that was PeerReady, `RunFailover` completes without cleanup, and the old home's VRG still is Primary. */
  method LoseCleanup(r: Run, t: Cluster, s: State) returns (n: State, ghost x: Execution)
    requires IsFailover(r, t) && Settled(r, Peer(t), s) && s.status.peerReady.success
    requires t in s.live && SettledSecondary(s.live[t])
    ensures FailoverRun(r, t, x) && x.states[0] == s && Last(x) == n
    ensures exists k: nat :: SkipsCleanup(x, t, k)
    ensures n.status.progression == Completed && SeenAs(n.live, Peer(t), Primary)
  {
    ghost var first, second;
    var s1;
    s1, first := PromoteByCode(r, t, s);
    n, second := RunStale(r, t, s1);
    x := Join(r, first, second);
    AnnouncedLater(first, second, x);
    NotCleanedByJoin(t, first, second, x);
    ghost var k: nat :| |first.events| <= k < |x.events| && Announces(x, k);
    assert SkipsCleanup(x, t, k);
  }
}
