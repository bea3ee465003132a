/** The cumulative count of failovers and relocations a DRPC keeps in an annotation. */
module ActionCounter {
  import opened Options
  import opened DRTypes

  /** Counts are 64-bit unsigned and wrap around. */
  const LIMIT: nat := 0x1_0000_0000_0000_0000

  datatype Counts = Counts(failover: nat, relocate: nat, lastPhase: Phase)

  const ZERO := Counts(0, 0, NoPhase)

  /** The annotation as it is found: missing, unreadable, or decoded. */
  datatype Annotation = Missing | Malformed | Decoded(counts: Counts)

  function Parse(a: Annotation): Counts {
    match a case Decoded(c) => c case _ => ZERO
  }

  function Increment(n: nat): nat { (n + 1) % LIMIT }

  class DRPC {
    var phase: Phase
    var annotation: Annotation

    constructor (phase: Phase, annotation: Annotation)
      ensures this.phase == phase && this.annotation == annotation
    {
      this.phase, this.annotation := phase, annotation;
    }

    /** Accounts the current phase; returns whether the annotation has to be persisted. */
    method SyncActionCount() returns (changed: bool)
      modifies this`annotation
      ensures Parse(annotation) == Observe(Parse(old(annotation)), phase)
      ensures changed == (Parse(annotation) != Parse(old(annotation)))
      ensures !changed ==> annotation == old(annotation)
    {
      var counts := Parse(annotation);
      if counts.lastPhase == phase { return false; }
      if counts.lastPhase != Initiating && phase != Initiating { return false; }
      if counts.lastPhase == Initiating {
        match phase {
          case FailingOver => counts := counts.(failover := Increment(counts.failover));
          case Relocating => counts := counts.(relocate := Increment(counts.relocate));
          case _ =>
        }
      }
      counts := counts.(lastPhase := phase);
      annotation := Decoded(counts);
      return true;
    }
  }

  function Observe(c: Counts, phase: Phase): Counts {
    if c.lastPhase == phase || (c.lastPhase != Initiating && phase != Initiating) then c
    else if c.lastPhase != Initiating then c.(lastPhase := phase)
    else
      Counts(if phase == FailingOver then Increment(c.failover) else c.failover,
             if phase == Relocating then Increment(c.relocate) else c.relocate,
             phase)
  }

  function ObserveAll(c: Counts, phases: seq<Phase>): Counts {
    if phases == [] then c else Observe(ObserveAll(c, phases[..|phases| - 1]), phases[|phases| - 1])
  }

  // ---------------------------------------------------------------------------
  // The reference: steps of the sequence of phases with its repeats removed
  // ---------------------------------------------------------------------------

  /** The sequence with consecutive repeats merged. */
  function Destutter(phases: seq<Phase>): (r: seq<Phase>)
    ensures phases != [] ==> r != [] && r[|r| - 1] == phases[|phases| - 1]
    ensures phases == [] ==> r == []
  {
    if phases == [] then []
    else
      var front := Destutter(phases[..|phases| - 1]);
      var last := phases[|phases| - 1];
      if front != [] && front[|front| - 1] == last then front else front + [last]
  }

  lemma {:induction false} DestutterMerges(phases: seq<Phase>)
    ensures forall i | 0 < i < |Destutter(phases)| :: Destutter(phases)[i - 1] != Destutter(phases)[i]
  {
    if phases != [] { DestutterMerges(phases[..|phases| - 1]); }
  }

  /** How often `from` is directly followed by `to`. */
  function StepCount(s: seq<Phase>, from: Phase, to: Phase): nat {
    if |s| < 2 then 0
    else StepCount(s[..|s| - 1], from, to) + if s[|s| - 2] == from && s[|s| - 1] == to then 1 else 0
  }

  lemma ModuloStep(a: nat, k: nat)
    requires a < LIMIT
    ensures Increment((a + k) % LIMIT) == (a + (k + 1)) % LIMIT
  {
    var n := a + k;
    assert n == LIMIT * (n / LIMIT) + n % LIMIT;
    if n % LIMIT + 1 < LIMIT {
      assert n + 1 == LIMIT * (n / LIMIT) + (n % LIMIT + 1);
    } else {
      assert n + 1 == LIMIT * (n / LIMIT + 1);
    }
  }

  /** Whatever phases are observed, and however often each is seen again, the counters are the
      numbers of Initiating-to-FailingOver and Initiating-to-Relocating steps. */
  lemma {:induction false} CountsAreSteps(start: Counts, phases: seq<Phase>)
    requires start.failover < LIMIT && start.relocate < LIMIT && start.lastPhase != Initiating
    ensures
      var c := ObserveAll(start, phases);
      var steps := Destutter(phases);
      && c.failover == (start.failover + StepCount(steps, Initiating, FailingOver)) % LIMIT
      && c.relocate == (start.relocate + StepCount(steps, Initiating, Relocating)) % LIMIT
      && (c.lastPhase == Initiating <==> phases != [] && phases[|phases| - 1] == Initiating)
  {
    if phases != [] {
      var front, last := phases[..|phases| - 1], phases[|phases| - 1];
      CountsAreSteps(start, front);
      var c, steps := ObserveAll(start, front), Destutter(front);
      ModuloStep(start.failover, StepCount(steps, Initiating, FailingOver));
      ModuloStep(start.relocate, StepCount(steps, Initiating, Relocating));
      if steps != [] {
        assert (steps + [last])[..|steps|] == steps;
      }
    }
  }

  /** Seeing a sequence again with extra repeats changes no counter. */
  lemma RepeatsDoNotCount(start: Counts, a: seq<Phase>, b: seq<Phase>)
    requires start.failover < LIMIT && start.relocate < LIMIT && start.lastPhase != Initiating
    requires Destutter(a) == Destutter(b)
    ensures ObserveAll(start, a).failover == ObserveAll(start, b).failover
    ensures ObserveAll(start, a).relocate == ObserveAll(start, b).relocate
  {
    CountsAreSteps(start, a);
    CountsAreSteps(start, b);
  }
}
