/** The reconcile methods composed into fair rounds: what `RelocateProgress` promises of every sequence of
    fair rounds is what these methods deliver, and such sequences exist from every state. */
module RelocateWitness {
  import opened Options
  import opened DRTypes
  import AC = ActionCounter
  import opened Protocol
  import opened Executions
  import opened RelocateSafety
  import opened RelocateOrder
  import opened PromotionStability
  import opened PromotionUndoing
  import opened Orchestration
  import opened RelocateProgress
  import opened Rounds

  /** One reconcile of the code in any environment, from a state between reconciles. */
  method Reconcile(r: Run, p: Cluster, m: State, env: Env) returns (work: Store, ghost trace: seq<Act>)
    requires IsRelocation(r, p)
    ensures Reached(CtxOf(r, m, env), StoreOf(m), trace, work)
    ensures !env.faulty && {DR1, DR2} <= env.reachable ==> Advances(CtxOf(r, m, env), p, StoreOf(m), work)
  {
    var d := new DRPCInstance(CtxOf(r, m, env), [DR1, DR2], StoreOf(m), AC.ZERO);
    var _ := d.RunRelocate();
    work := Store(d.mw, d.decisions, d.status);
    trace := d.trace;
  }

  /** The demotion of an unseen promotion, by the code: after one report of the old home that leaves the
      settled state, `RunRelocate` demotes the target. */
  method UndoPromotion(r: Run, p: Cluster, s: State) returns (n: State, ghost x: Execution)
    requires IsRelocation(r, p) && RolesInv(r, p, s) && s.hub.Idle?
    requires WorkIs(s.mw, p, Primary) && !SeenAs(s.view, p, Primary) && MayProceed(s.status)
    ensures IsExecution(r, x) && x.states[0] == s && Last(x) == n && n.hub.Idle? && WorkIs(n.mw, p, Secondary)
  {
    var m := Unsettled(p, s);
    UnsettledSeen(r, p, s);
    var work;
    ghost var trace;
    work, trace := Reconcile(r, p, m, QuietEnv());
    assert Settles(CtxOf(r, m, QuietEnv()), p, StoreOf(m), work);
    n := Next(r, m.(mw := work.mw, decisions := work.decisions, hub := Busy(CtxOf(r, m, QuietEnv()), work.status)), Stop(true));
    ghost var first := TurnsUnsettled(r, p, s);
    ghost var second := ReconcileIsExecution(r, m, QuietEnv(), trace, true);
    x := Join(r, first, second);
  }

  lemma WellRoundIsFair(r: Run, p: Cluster, s: State, env: Env, trace: seq<Act>)
    requires IsRelocation(r, p) && FullInv(r, p, s) && s.hub.Idle?
    requires
      var m := CaughtUp(r, p, s, WellRound(r, p, s, env, []));
      var x := CtxOf(r, m, env);
      && FairEnv(p, env, m)
      && Legal(x, StoreOf(m), trace) && Advances(x, p, StoreOf(m), Replay(x, StoreOf(m), trace))
    ensures FairRound(r, p, s, WellRound(r, p, s, env, trace))
  {
    WellRoundCatchesUp(r, p, s, env, trace);
  }

  /** One fair round of the code, in any environment that holds nothing up: the clusters catch up, then
      `RunRelocate` runs and its status is saved. */
  method RunRound(r: Run, p: Cluster, s: State, env: Env) returns (n: State, ghost rd: Round)
    requires IsRelocation(r, p) && FullInv(r, p, s) && s.hub.Idle?
    requires FairEnv(p, env, CaughtUp(r, p, s, WellRound(r, p, s, env, [])))
    ensures FairRound(r, p, s, rd) && n == After(r, p, s, rd) && rd.env == env
    ensures FullInv(r, p, n) && n.hub.Idle?
  {
    var m := CaughtUp(r, p, s, WellRound(r, p, s, env, []));
    var work;
    ghost var trace;
    work, trace := Reconcile(r, p, m, env);
    n := Next(r, m.(mw := work.mw, decisions := work.decisions, hub := Busy(CtxOf(r, m, env), work.status)), Stop(true));
    rd := WellRound(r, p, s, env, trace);
    WellRoundIsFair(r, p, s, env, trace);
    AfterKeepsFull(r, p, s, rd);
  }

  lemma {:induction false} OneMoreRound(r: Run, p: Cluster, s: State, rounds: seq<Round>, rd: Round)
    requires FairRounds(r, p, s, rounds) && FairRound(r, p, AfterAll(r, p, s, rounds), rd)
    ensures FairRounds(r, p, s, rounds + [rd])
    ensures AfterAll(r, p, s, rounds + [rd]) == After(r, p, AfterAll(r, p, s, rounds), rd)
    decreases |rounds|
  {
    if rounds != [] {
      assert (rounds + [rd])[0] == rounds[0] && (rounds + [rd])[1..] == rounds[1..] + [rd];
      OneMoreRound(r, p, After(r, p, s, rounds[0]), rounds[1..], rd);
    } else {
      assert ([] + [rd])[1..] == [];
    }
  }

  /** From every state of a relocation between reconciles, six rounds of the code complete it, whatever the
      environment of each round, as long as it holds nothing up. */
  method RunToCompletion(r: Run, p: Cluster, s: State, env: State -> Env) returns (n: State, ghost rounds: seq<Round>)
    requires IsRelocation(r, p) && FullInv(r, p, s) && s.hub.Idle?
    requires forall m :: FairEnv(p, env(m), m)
    ensures |rounds| == 6 && FairRounds(r, p, s, rounds) && n == AfterAll(r, p, s, rounds)
    ensures Done(r, p, LastSync(rounds), n)
  {
    n, rounds := s, [];
    for i := 0 to 6
      invariant |rounds| == i && FairRounds(r, p, s, rounds) && n == AfterAll(r, p, s, rounds)
      invariant FullInv(r, p, n) && n.hub.Idle?
    {
      ghost var rd;
      n, rd := RunRound(r, p, n, env(CaughtUp(r, p, n, WellRound(r, p, n, WellEnv(), []))));
      OneMoreRound(r, p, s, rounds, rd);
      rounds := rounds + [rd];
    }
    RoundsComplete(r, p, s, rounds);
  }

  /** There is such an environment. */
  lemma WellEnvIsFair(p: Cluster, m: State)
    ensures FairEnv(p, WellEnv(), m)
  {
  }
}
