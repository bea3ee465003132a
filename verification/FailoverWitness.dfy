/** The reconcile methods composed into fair rounds: what `FailoverProgress` promises of every sequence of
    fair rounds is what these methods deliver, and such sequences exist from every state. */
module FailoverWitness {
  import opened Options
  import opened DRTypes
  import AC = ActionCounter
  import opened Protocol
  import opened Executions
  import opened RelocateSafety
  import opened FailoverSafety
  import opened Orchestration
  import opened FailoverProgress
  import opened Rounds

  lemma WellRoundIsFair(r: Run, t: Cluster, s: State, env: Env, trace: seq<Act>)
    requires IsFailover(r, t) && FailoverInv(r, t, s) && s.hub.Idle?
    requires
      var m := CaughtUp(r, t, s, WellRound(r, t, s, env, []));
      var x := CtxOf(r, m, env);
      && FairFailoverCtx(t, x, StoreOf(m))
      && Legal(x, StoreOf(m), trace) && FailoverAdvances(x, t, StoreOf(m), Replay(x, StoreOf(m), trace))
    ensures FairFailoverRound(r, t, s, WellRound(r, t, s, env, trace))
  {
    WellRoundCatchesUp(r, t, s, env, trace);
  }

  /** One reconcile of the code in any environment, from a state between reconciles. */
  method Reconcile(r: Run, t: Cluster, m: State, env: Env) returns (work: Store, ghost trace: seq<Act>)
    requires IsFailover(r, t) && Readable(CtxOf(r, m, env), m.decisions)
    ensures Reached(CtxOf(r, m, env), StoreOf(m), trace, work)
    ensures !env.faulty ==> FailoverAdvances(CtxOf(r, m, env), t, StoreOf(m), work)
  {
    var d := new DRPCInstance(CtxOf(r, m, env), [DR1, DR2], StoreOf(m), AC.ZERO);
    var _, _ := d.RunFailover();
    work := Store(d.mw, d.decisions, d.status);
    trace := d.trace;
  }

  /** One fair round of the code, in any environment that holds nothing up: the clusters catch up, then
      `RunFailover` runs and its status is saved. */
  method RunRound(r: Run, t: Cluster, s: State, env: Env) returns (n: State, ghost rd: Round)
    requires IsFailover(r, t) && FailoverInv(r, t, s) && s.hub.Idle?
    requires var m := CaughtUp(r, t, s, WellRound(r, t, s, env, [])); FairFailoverCtx(t, CtxOf(r, m, env), StoreOf(m))
    ensures FairFailoverRound(r, t, s, rd) && n == After(r, t, s, rd) && rd.env == env
    ensures FailoverInv(r, t, n) && n.hub.Idle?
  {
    var first := WellRound(r, t, s, env, []);
    WellRoundCatchesUp(r, t, s, env, []);
    CaughtUpFailover(r, t, s, first);
    var m := CaughtUp(r, t, s, first);
    var work;
    ghost var trace;
    work, trace := Reconcile(r, t, m, env);
    n := Next(r, m.(mw := work.mw, decisions := work.decisions, hub := Busy(CtxOf(r, m, env), work.status)), Stop(true));
    rd := WellRound(r, t, s, env, trace);
    WellRoundIsFair(r, t, s, env, trace);
    AfterKeepsFailover(r, t, s, rd);
  }

  /** An asynchronous policy, with the DRCluster of the old home known, holds nothing up. */
  function KnownEnv(t: Cluster): Env {
    WellEnv().(drClusters := map[Peer(t) := DRClusterView(1, Absent, [])])
  }

  lemma KnownEnvIsFair(r: Run, t: Cluster, m: State)
    requires IsFailover(r, t)
    ensures FairFailoverCtx(t, CtxOf(r, m, KnownEnv(t)), StoreOf(m))
  {
    var x := CtxOf(r, m, KnownEnv(t));
    assert x.home.Some? && t !in x.env.drClusters;
  }

  lemma {:induction false} OneMoreRound(r: Run, t: Cluster, s: State, rounds: seq<Round>, rd: Round)
    requires FairFailoverRounds(r, t, s, rounds) && FairFailoverRound(r, t, AfterAll(r, t, s, rounds), rd)
    ensures FairFailoverRounds(r, t, s, rounds + [rd])
    ensures AfterAll(r, t, s, rounds + [rd]) == After(r, t, AfterAll(r, t, s, rounds), rd)
    decreases |rounds|
  {
    if rounds != [] {
      assert (rounds + [rd])[0] == rounds[0] && (rounds + [rd])[1..] == rounds[1..] + [rd];
      OneMoreRound(r, t, After(r, t, s, rounds[0]), rounds[1..], rd);
    } else {
      assert ([] + [rd])[1..] == [];
    }
  }

  /** From every state of a failover between reconciles, four rounds of the code complete it, whatever the
      environment of each round, as long as it holds nothing up. */
  method RunToCompletion(r: Run, t: Cluster, s: State, env: State -> Env) returns (n: State, ghost rounds: seq<Round>)
    requires IsFailover(r, t) && FailoverInv(r, t, s) && s.hub.Idle?
    requires forall m :: FairFailoverCtx(t, CtxOf(r, m, env(m)), StoreOf(m))
    ensures |rounds| == 4 && FairFailoverRounds(r, t, s, rounds) && n == AfterAll(r, t, s, rounds)
    ensures Done(r, t, LastSync(rounds), n)
  {
    n, rounds := s, [];
    for i := 0 to 4
      invariant |rounds| == i && FairFailoverRounds(r, t, s, rounds) && n == AfterAll(r, t, s, rounds)
      invariant FailoverInv(r, t, n) && n.hub.Idle?
    {
      ghost var rd;
      n, rd := RunRound(r, t, n, env(CaughtUp(r, t, n, WellRound(r, t, n, KnownEnv(t), []))));
      OneMoreRound(r, t, s, rounds, rd);
      rounds := rounds + [rd];
    }
    RoundsComplete(r, t, s, rounds);
  }
}
