/** Building executions: step by step, one after the other, and from the writes of whole reconciles. */
module Executions {
  import opened Options
  import opened DRTypes
  import opened Protocol

  function Last(e: Execution): State
    requires |e.states| == |e.events| + 1
  {
    e.states[|e.events|]
  }

  /** `y` starts as `x` does, and goes on. */
  ghost predicate Continues(r: Run, x: Execution, y: Execution)
    requires |x.states| == |x.events| + 1
  {
    && IsExecution(r, y) && |x.events| <= |y.events|
    && y.states[..|x.states|] == x.states && y.events[..|x.events|] == x.events
  }

  /** One more step of an execution. */
  lemma Then(r: Run, e: Execution, v: Event) returns (f: Execution)
    requires IsExecution(r, e) && Enabled(r, Last(e), v)
    ensures IsExecution(r, f) && f.states[0] == e.states[0] && Last(f) == Next(r, Last(e), v)
    ensures f.events == e.events + [v] && f.states == e.states + [Next(r, Last(e), v)]
  {
    var n := |e.events|;
    f := Execution(e.states + [Next(r, Last(e), v)], e.events + [v]);
    forall i: nat | i < |f.events| ensures StepOf(r, f, i) {
      if i < n {
        assert StepOf(r, e, i);
        assert f.states[i] == e.states[i] && f.states[i + 1] == e.states[i + 1] && f.events[i] == e.events[i];
      }
    }
  }

  /** Executions one after the other. */
  lemma Join(r: Run, x: Execution, y: Execution) returns (z: Execution)
    requires IsExecution(r, x) && IsExecution(r, y) && Last(x) == y.states[0]
    ensures Continues(r, x, z) && z.states[0] == x.states[0] && Last(z) == Last(y)
    ensures z.events == x.events + y.events && z.states == x.states + y.states[1..]
  {
    z := Execution(x.states + y.states[1..], x.events + y.events);
    var n := |x.events|;
    forall i: nat | i < |z.events| ensures StepOf(r, z, i) {
      if i < n {
        assert StepOf(r, x, i);
        assert z.states[i] == x.states[i] && z.states[i + 1] == x.states[i + 1] && z.events[i] == x.events[i];
      } else {
        assert StepOf(r, y, i - n);
        assert z.states[i] == y.states[i - n] && z.states[i + 1] == y.states[i - n + 1] && z.events[i] == y.events[i - n];
      }
    }
  }

  // ---------------------------------------------------------------------------
  // Reconciles as executions
  // ---------------------------------------------------------------------------

  /** The writes among the events, in order. */
  function Writes(es: seq<Event>): seq<Act> {
    if es == [] then []
    else
      var front := Writes(es[..|es| - 1]);
      if es[|es| - 1].Write? then front + [es[|es| - 1].act] else front
  }

  function StateAfter(r: Run, s: State, es: seq<Event>): State {
    if es == [] then s else Next(r, StateAfter(r, s, es[..|es| - 1]), es[|es| - 1])
  }

  /** Between the writes, agents, VRG controllers and views step whenever they can. */
  ghost predicate OthersEnabled(r: Run, s: State, es: seq<Event>) {
    forall i | 0 <= i < |es| && !es[i].Write? ::
      (es[i].Apply? || es[i].Report? || es[i].Refresh?) && Enabled(r, StateAfter(r, s, es[..i]), es[i])
  }

  lemma OthersFront(r: Run, s: State, es: seq<Event>)
    requires OthersEnabled(r, s, es) && es != []
    ensures OthersEnabled(r, s, es[..|es| - 1])
    ensures !es[|es| - 1].Write? ==> Enabled(r, StateAfter(r, s, es[..|es| - 1]), es[|es| - 1])
  {
    var front := es[..|es| - 1];
    forall i | 0 <= i < |front| && !front[i].Write?
      ensures (front[i].Apply? || front[i].Report? || front[i].Refresh?) && Enabled(r, StateAfter(r, s, front[..i]), front[i])
    {
      assert front[i] == es[i] && front[..i] == es[..i];
    }
  }

  /** The writes of a legal reconcile can be made one by one with the other parties stepping in
      anywhere: every such interleaving is an execution of the system, with the same writes, and it
      leaves the hub with the same store. */
  lemma {:induction false} InterleavingIsExecution(r: Run, s: State, x: Ctx, n: Store, es: seq<Event>)
    returns (e: Execution)
    requires Legal(x, n, Writes(es)) && OthersEnabled(r, InHub(s, x, n), es)
    ensures IsExecution(r, e) && e.states[0] == InHub(s, x, n) && e.events == es
    ensures Last(e) == StateAfter(r, InHub(s, x, n), es)
    ensures Last(e).hub.Busy? && Last(e).hub.ctx == x && InMemory(Last(e)) == Replay(x, n, Writes(es))
  {
    if es == [] {
      e := Execution([InHub(s, x, n)], []);
    } else {
      var k := |es| - 1;
      var front, last := es[..k], es[k];
      if last.Write? {
        assert Writes(es)[..|Writes(front)|] == Writes(front);
        LegalFront(x, n, Writes(es));
      }
      OthersFront(r, InHub(s, x, n), es);
      var before := InterleavingIsExecution(r, s, x, n, front);
      e := Then(r, before, last);
    }
  }

  /** The same without interruption, with every state in between. */
  lemma {:induction false} TraceIsExecution(r: Run, s: State, x: Ctx, n: Store, trace: seq<Act>)
    returns (e: Execution)
    requires Legal(x, n, trace)
    ensures IsExecution(r, e) && e.states[0] == InHub(s, x, n) && Last(e) == InHub(s, x, Replay(x, n, trace))
    ensures |e.events| == |trace| && forall i | 0 <= i < |trace| :: e.events[i] == Write(trace[i])
    ensures forall i | 0 <= i < |e.states| :: e.states[i].hub.Busy? && e.states[i].hub.ctx == x
  {
    if trace == [] {
      e := Execution([InHub(s, x, n)], []);
    } else {
      var k := |trace| - 1;
      LegalFront(x, n, trace);
      var front := TraceIsExecution(r, s, x, n, trace[..k]);
      assert InMemory(Last(front)) == Replay(x, n, trace[..k]);
      e := Then(r, front, Write(trace[k]));
      assert forall i | 0 <= i < k :: e.events[i] == front.events[i] == Write(trace[..k][i]);
    }
  }

  function StoreOf(s: State): Store { Store(s.mw, s.decisions, s.status) }

  lemma TwoWrites(x: Ctx, s: Store, a: Act, b: Act)
    requires May(x, s, a) && May(x, Effect(x, s, a), b)
    ensures Reached(x, s, [a, b], Effect(x, Effect(x, s, a), b))
  {
    assert Reached(x, s, [], s);
    Extend(x, s, [], s, a);
    assert [] + [a] == [a] && [a] + [b] == [a, b];
    Extend(x, s, [a], Effect(x, s, a), b);
  }

  /** A whole reconcile, from its start to its end. */
  lemma ReconcileIsExecution(r: Run, s: State, env: Env, trace: seq<Act>, saved: bool) returns (e: Execution)
    requires s.hub.Idle? && Legal(CtxOf(r, s, env), StoreOf(s), trace)
    ensures IsExecution(r, e) && e.states[0] == s && e.events != [] && e.events[|e.events| - 1] == Stop(saved)
    ensures Last(e) == Next(r, InHub(s, CtxOf(r, s, env), Replay(CtxOf(r, s, env), StoreOf(s), trace)), Stop(saved))
    ensures forall i | 0 <= i < |e.states| :: e.states[i].hub.Busy? ==> e.states[i].hub.ctx == CtxOf(r, s, env)
    ensures forall i | 0 <= i < |e.events| - 1 :: !e.events[i].Stop?
  {
    var x := CtxOf(r, s, env);
    var start := Then(r, Execution([s], []), Begin(env));
    var writes := TraceIsExecution(r, s, x, StoreOf(s), trace);
    assert Last(start) == InHub(s, x, StoreOf(s));
    e := Join(r, start, writes);
    assert forall i | 0 <= i < |trace| :: e.events[i + 1] == Write(trace[i]);
    e := Then(r, e, Stop(saved));
  }
}
