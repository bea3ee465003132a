/** The gate a DRPC passes when its phase is unknown, on a new or a recovered hub: the hub looks at the
    VRGs it can still see and decides whether to go on, to wait for the user to ask for a failover, or
    to stop. */
module HubRecovery {
  import opened Options
  import opened DRTypes

  datatype VRG = VRG(role: Role, action: Option<Action>)

  /** The VRG of the last primary in the object store, with the cluster it was meant for. */
  datatype Archived = Archived(action: Option<Action>, destination: string)

  /** What the hub finds: the VRGs it can see, how many clusters answered, the cluster that did not, and
      whether the VRGs already belong to this DRPC. */
  datatype Query = Query(vrgs: map<string, VRG>, reached: nat, failed: string, managed: bool, archived: Option<Archived>)

  datatype DRPCSpec = DRPCSpec(action: Option<Action>, preferredCluster: string, failoverCluster: string)

  datatype Progress = Continue | AllowFailover | Stop

  function Destination(spec: DRPCSpec): string {
    if spec.action == Some(Failover) then spec.failoverCluster else spec.preferredCluster
  }

  /** An order in which the VRGs may be visited. */
  ghost predicate Enumerates(order: seq<string>, vrgs: map<string, VRG>) {
    |order| == |vrgs| && forall c :: c in vrgs <==> c in order
  }

  /** The first primary of the order, or else its last VRG. */
  function Picked(vrgs: map<string, VRG>, order: seq<string>): (c: string)
    requires |order| > 0 && forall c | c in order :: c in vrgs
    ensures c in order
    ensures vrgs[c].role == Primary <==> exists d :: d in order && vrgs[d].role == Primary
  {
    if |order| == 1 || vrgs[order[0]].role == Primary then order[0] else Picked(vrgs, order[1..])
  }

  predicate Intended(spec: DRPCSpec, vrgs: map<string, VRG>, c: string)
    requires c in vrgs
  {
    spec.action == vrgs[c].action && Destination(spec) == c
  }

  /** A user who was told that failover is allowed asks for one to a cluster that answered. */
  predicate UserChoseFailover(phase: Phase, spec: DRPCSpec, q: Query) {
    phase == WaitForUser && spec.action == Some(Failover) && spec.failoverCluster != q.failed
  }

  function Determine(phase: Phase, spec: DRPCSpec, q: Query, order: seq<string>): Progress
    requires Enumerates(order, q.vrgs)
  {
    var dst, count := Destination(spec), |q.vrgs|;
    if !q.managed then Stop
    else if q.reached == 0 then Stop
    else if q.reached == 2 && count == 0 then Continue
    else if UserChoseFailover(phase, spec, q) then Continue
    else if q.reached == 1 && count == 0 then
      match q.archived
      case None => if q.failed != dst then Continue else Stop
      case Some(v) =>
        if spec.action != v.action then AllowFailover
        else if dst == v.destination && dst != q.failed then Continue
        else AllowFailover
    else if q.reached == 1 && count == 1 then
      var c := order[0];
      if q.vrgs[c].role == Primary && dst == c then
        if spec.action != q.vrgs[c].action then Stop else Continue
      else AllowFailover
    else if q.reached == 2 && count >= 1 then
      var c := Picked(q.vrgs, order);
      if q.vrgs[c].role == Secondary && count == 2 then Stop
      else if Intended(spec, q.vrgs, c) then Continue
      else AllowFailover
    else AllowFailover
  }

  // ---------------------------------------------------------------------------
  // The gate
  // ---------------------------------------------------------------------------

  datatype Flag = Unset | Ready | Paused

  class DRPC {
    var spec: DRPCSpec
    var phase: Phase
    var paused: bool
    var peerReady: Flag

    constructor (spec: DRPCSpec, phase: Phase)
      ensures this.spec == spec && this.phase == phase
    {
      this.spec, this.phase, this.paused, this.peerReady := spec, phase, false, Unset;
    }

    /** `q` is `None` when the VRGs cannot be listed.  Without a requeue the action is processed. */
    method EnsureDRPCStatusConsistency(q: Option<Query>, order: seq<string>) returns (requeue: bool)
      requires q.Some? ==> Enumerates(order, q.value.vrgs)
      modifies this
      ensures spec == old(spec) && phase == AfterGate(old(phase), spec, q, order)
      ensures requeue == !PassesGate(old(phase), spec, q, order)
      ensures old(phase) !in {NoPhase, WaitForUser} ==> !requeue && phase == old(phase)
      ensures old(phase) in {NoPhase, WaitForUser} ==>
                requeue == (q.None? || Determine(old(phase), spec, q.value, order) != Continue)
      ensures !requeue ==> paused == old(paused) && peerReady == old(peerReady)
      ensures requeue && q.Some? ==> paused
      ensures requeue && q.Some? ==>
                peerReady == if Determine(old(phase), spec, q.value, order) == AllowFailover then Ready else Paused
    {
      if phase != NoPhase && phase != WaitForUser { return false; }
      if q.None? { return true; }
      match Determine(phase, spec, q.value, order) {
        case Continue => return false;
        case AllowFailover =>
          phase := WaitForUser;
          paused := true;
          peerReady := Ready;
          return true;
        case Stop =>
          paused := true;
          peerReady := Paused;
          return true;
      }
    }
  }

  function AfterGate(phase: Phase, spec: DRPCSpec, q: Option<Query>, order: seq<string>): Phase
    requires q.Some? ==> Enumerates(order, q.value.vrgs)
  {
    if (phase == NoPhase || phase == WaitForUser) && q.Some? && Determine(phase, spec, q.value, order) == AllowFailover
    then WaitForUser else phase
  }

  /** The reconcile goes on to process the action. */
  predicate PassesGate(phase: Phase, spec: DRPCSpec, q: Option<Query>, order: seq<string>)
    requires q.Some? ==> Enumerates(order, q.value.vrgs)
  {
    (phase != NoPhase && phase != WaitForUser) || (q.Some? && Determine(phase, spec, q.value, order) == Continue)
  }

  // ---------------------------------------------------------------------------
  // The order of the visit
  // ---------------------------------------------------------------------------

  ghost predicate AtMostOnePrimary(vrgs: map<string, VRG>) {
    forall c, d | c in vrgs && d in vrgs && vrgs[c].role == Primary && vrgs[d].role == Primary :: c == d
  }

  lemma SingleOrder(vrgs: map<string, VRG>, a: seq<string>, b: seq<string>)
    requires Enumerates(a, vrgs) && Enumerates(b, vrgs) && |vrgs| == 1
    ensures a == b
  {
    assert a[0] in b;
  }

  /** With at most one primary among the VRGs of two clusters that answered, the decision does not
      depend on the order in which they are visited. */
  lemma OrderIrrelevant(phase: Phase, spec: DRPCSpec, q: Query, a: seq<string>, b: seq<string>)
    requires q.reached == 2 && |q.vrgs| <= 2 && AtMostOnePrimary(q.vrgs)
    requires Enumerates(a, q.vrgs) && Enumerates(b, q.vrgs)
    ensures Determine(phase, spec, q, a) == Determine(phase, spec, q, b)
  {
    if |q.vrgs| == 1 {
      SingleOrder(q.vrgs, a, b);
    } else if |q.vrgs| == 2 {
      var c, d := Picked(q.vrgs, a), Picked(q.vrgs, b);
      assert c in b && d in a;
    }
  }

  /** With two primaries it does, exactly if one of them is what the spec intends. */
  lemma TwoPrimariesOrderMatters(phase: Phase, spec: DRPCSpec, q: Query, c: string, d: string)
    requires q.reached == 2 && q.managed && !UserChoseFailover(phase, spec, q)
    requires c != d && q.vrgs.Keys == {c, d} && q.vrgs[c].role == Primary && q.vrgs[d].role == Primary
    ensures Enumerates([c, d], q.vrgs) && Enumerates([d, c], q.vrgs)
    ensures Determine(phase, spec, q, [c, d]) != Determine(phase, spec, q, [d, c]) <==>
            Intended(spec, q.vrgs, c) || Intended(spec, q.vrgs, d)
  {
    assert |q.vrgs| == |q.vrgs.Keys| == 2;
    assert Picked(q.vrgs, [c, d]) == c && Picked(q.vrgs, [d, c]) == d;
  }

  // ---------------------------------------------------------------------------
  // What passing the gate means
  // ---------------------------------------------------------------------------

  /** From an empty phase, with VRGs in view, going on means that the spec's action and destination are
      those of a VRG in view; and that this VRG is the primary if it is not the only VRG of two
      clusters that answered. */
  lemma ContinueIsIntended(spec: DRPCSpec, q: Query, order: seq<string>)
    requires Enumerates(order, q.vrgs) && q.vrgs != map[] && |q.vrgs| <= q.reached <= 2
    requires Determine(NoPhase, spec, q, order) == Continue
    ensures
      var dst := Destination(spec);
      && q.managed && dst in q.vrgs && Intended(spec, q.vrgs, dst)
      && (q.reached == 1 || |q.vrgs| == 2 ==> q.vrgs[dst].role == Primary)
  {
    assert q.vrgs.Keys != {};
    assert |q.vrgs| > 0;
    if q.reached == 2 { assert Picked(q.vrgs, order) in order; }
  }

  /** From WaitForUser, a failover to a cluster that answered goes on whatever the VRGs look like. */
  lemma ChosenFailoverContinues(spec: DRPCSpec, q: Query, order: seq<string>)
    requires Enumerates(order, q.vrgs) && q.managed && q.reached > 0 && UserChoseFailover(WaitForUser, spec, q)
    ensures Determine(WaitForUser, spec, q, order) == Continue
  {
  }

  /** The cluster a spec acts on: the failover cluster of a failover, and the preferred one otherwise. */
  predicate ActsOn(spec: DRPCSpec, c: string) {
    match spec.action
    case Some(Failover) => c == spec.failoverCluster
    case _ => c == spec.preferredCluster
  }

  /** The VRGs of a query belong to clusters that answered; there are two clusters. */
  predicate Plausible(q: Query) { |q.vrgs| <= q.reached <= 2 }

  /** With no cluster reached, or VRGs that do not belong to the DRPC yet, the gate stays shut in every
      phase, whatever the user asks for. */
  lemma NobodyReachedStops(phase: Phase, spec: DRPCSpec, q: Query, order: seq<string>)
    requires Enumerates(order, q.vrgs) && (q.reached == 0 || !q.managed)
    ensures Determine(phase, spec, q, order) == Stop
  {
  }

  /** With no VRG in view, a DRPC with an empty phase goes on exactly if both clusters answered, which makes
      it a first deployment, or if one did, the cluster it acts on among them, and the object store knows
      of no VRG or of one with the same action and destination. */
  lemma EmptyViewContinuesExactly(spec: DRPCSpec, q: Query)
    requires q.vrgs == map[] && q.managed && 1 <= q.reached <= 2
    ensures Enumerates([], q.vrgs)
    ensures Determine(NoPhase, spec, q, []) == Continue <==>
            || q.reached == 2
            || (!ActsOn(spec, q.failed) &&
                (q.archived.None? || (q.archived.value.action == spec.action && ActsOn(spec, q.archived.value.destination))))
  {
  }

  /** The gate stops for the user to look into it, with a cluster reached, exactly in three cases: the
      one cluster that did not answer is the one to act on and nothing at all is known; the one VRG in
      view is Primary where the spec acts but with another action; or both VRGs are Secondary. */
  lemma StopsExactly(phase: Phase, spec: DRPCSpec, q: Query, order: seq<string>)
    requires Enumerates(order, q.vrgs) && Plausible(q) && q.managed && q.reached > 0
    requires !UserChoseFailover(phase, spec, q)
    ensures Determine(phase, spec, q, order) == Stop <==>
            || (q.reached == 1 && q.vrgs == map[] && q.archived.None? && ActsOn(spec, q.failed))
            || (q.reached == 1 && exists c :: c in q.vrgs && ActsOn(spec, c) && q.vrgs[c].role == Primary && q.vrgs[c].action != spec.action)
            || (q.reached == 2 && |q.vrgs| == 2 && forall c | c in q.vrgs :: q.vrgs[c].role == Secondary)
  {
    EmptyOrNot(q.vrgs);
    if |q.vrgs| == 1 { OnlyOne(q.vrgs, order); }
    if q.reached == 2 && |q.vrgs| >= 1 {
      var c := Picked(q.vrgs, order);
      assert c in q.vrgs;
    }
  }

  lemma EmptyOrNot(vrgs: map<string, VRG>)
    ensures vrgs == map[] <==> |vrgs| == 0
  {
    if |vrgs| == 0 { assert vrgs.Keys == {}; }
  }

  lemma OnlyOne(vrgs: map<string, VRG>, order: seq<string>)
    requires Enumerates(order, vrgs) && |vrgs| == 1
    ensures order[0] in vrgs && forall c | c in vrgs :: c == order[0]
  {
    assert forall c | c in vrgs :: c in order;
  }

  /** Failover is allowed, and waited for, whenever the gate neither stops nor goes on; and with VRGs in
      view and at most one of them Primary it goes on exactly if a VRG in view has the action and is where
      the spec acts, and is Primary unless it is the only VRG of two clusters that answered. */
  lemma GoesOnExactly(phase: Phase, spec: DRPCSpec, q: Query, order: seq<string>)
    requires Enumerates(order, q.vrgs) && Plausible(q) && q.managed && q.vrgs != map[] && AtMostOnePrimary(q.vrgs)
    requires !UserChoseFailover(phase, spec, q)
    ensures Determine(phase, spec, q, order) == Continue <==>
            exists c :: c in q.vrgs && ActsOn(spec, c) && q.vrgs[c].action == spec.action
                        && (q.vrgs[c].role == Primary || (q.reached == 2 && |q.vrgs| == 1))
  {
    EmptyOrNot(q.vrgs);
    if |q.vrgs| == 1 { OnlyOne(q.vrgs, order); }
    if q.reached == 2 {
      var c := Picked(q.vrgs, order);
      assert c in q.vrgs;
      if |q.vrgs| == 1 { assert c == order[0]; }
    }
  }

  // ---------------------------------------------------------------------------
  // Runs of user edits and reconciles
  // ---------------------------------------------------------------------------

  datatype Event = Edit(spec: DRPCSpec) | Reconcile(q: Option<Query>, order: seq<string>, saved: bool)

  datatype State = State(spec: DRPCSpec, phase: Phase)

  ghost predicate Possible(e: Event) { e.Reconcile? && e.q.Some? ==> Enumerates(e.order, e.q.value.vrgs) }

  /** A run up to the first reconcile that processes the action: user edits, and reconciles whose status
      is saved or lost. */
  ghost predicate IsRun(states: seq<State>, events: seq<Event>) {
    && |states| == |events| + 1
    && forall i | 0 <= i < |events| ::
         && Possible(events[i])
         && states[i + 1] == match events[i]
              case Edit(spec) => states[i].(spec := spec)
              case Reconcile(q, order, saved) =>
                if saved then states[i].(phase := AfterGate(states[i].phase, states[i].spec, q, order)) else states[i]
  }

  /** Both clusters answered, and both hold a secondary: a hub lost in the middle of a relocation. */
  ghost predicate BothSecondary(q: Query) {
    q.reached == 2 && |q.vrgs| == 2 && forall c | c in q.vrgs :: q.vrgs[c].role == Secondary
  }

  /** From an empty phase with two secondaries no action ever runs, whatever action and clusters the
      user asks for, in any order, and whichever status is lost. */
  lemma {:induction false} TwoSecondariesStop(states: seq<State>, events: seq<Event>, k: nat)
    requires IsRun(states, events) && k < |states| && states[0].phase == NoPhase
    requires forall i | 0 <= i < |events| && events[i].Reconcile? && events[i].q.Some? :: BothSecondary(events[i].q.value)
    ensures states[k].phase == NoPhase
    ensures k < |events| && events[k].Reconcile? ==>
              !PassesGate(states[k].phase, states[k].spec, events[k].q, events[k].order)
  {
    if k > 0 {
      TwoSecondariesStop(states, events, k - 1);
      assert Possible(events[k - 1]);
      if events[k - 1].Reconcile? && events[k - 1].q.Some? {
        StopsOnTwoSecondaries(states[k - 1].spec, events[k - 1].q.value, events[k - 1].order);
      }
    }
    if k < |events| && events[k].Reconcile? && events[k].q.Some? {
      assert Possible(events[k]);
      StopsOnTwoSecondaries(states[k].spec, events[k].q.value, events[k].order);
    }
  }

  lemma StopsOnTwoSecondaries(spec: DRPCSpec, q: Query, order: seq<string>)
    requires Enumerates(order, q.vrgs) && BothSecondary(q)
    ensures Determine(NoPhase, spec, q, order) == Stop
  {
    assert Picked(q.vrgs, order) in order;
  }

  /** Step `i` told the user that failover is allowed, and remembered it. */
  ghost predicate AllowedAt(states: seq<State>, events: seq<Event>, i: nat)
    requires IsRun(states, events)
  {
    && i < |events| && Possible(events[i]) && events[i].Reconcile? && events[i].saved && events[i].q.Some?
    && Determine(states[i].phase, states[i].spec, events[i].q.value, events[i].order) == AllowFailover
  }

  lemma {:induction false} WaitingMeansAllowed(states: seq<State>, events: seq<Event>, k: nat)
    requires IsRun(states, events) && k < |states| && states[0].phase == NoPhase
    ensures states[k].phase == NoPhase || (states[k].phase == WaitForUser && exists i :: 0 <= i < k && AllowedAt(states, events, i))
  {
    if k > 0 {
      WaitingMeansAllowed(states, events, k - 1);
      assert Possible(events[k - 1]);
      if states[k].phase == WaitForUser && states[k - 1].phase == NoPhase {
        assert AllowedAt(states, events, k - 1);
      }
    }
  }

  /** A DRPC with an empty phase whose VRGs are in view gets to its action in two ways only: the spec
      intends what a VRG in view already has, or an earlier reconcile told the user that failover is
      allowed and the user now asks for one to a cluster that answers. */
  lemma ActionNeedsIntentOrUser(states: seq<State>, events: seq<Event>, k: nat)
    requires IsRun(states, events) && k < |events| && states[0].phase == NoPhase
    requires Possible(events[k]) && events[k].Reconcile? && events[k].q.Some?
    requires var q := events[k].q.value; q.vrgs != map[] && |q.vrgs| <= q.reached <= 2
    requires PassesGate(states[k].phase, states[k].spec, events[k].q, events[k].order)
    ensures
      var q, spec := events[k].q.value, states[k].spec;
      || (Destination(spec) in q.vrgs && Intended(spec, q.vrgs, Destination(spec)))
      || (UserChoseFailover(states[k].phase, spec, q) && exists i :: 0 <= i < k && AllowedAt(states, events, i))
  {
    var q, spec := events[k].q.value, states[k].spec;
    WaitingMeansAllowed(states, events, k);
    if !UserChoseFailover(states[k].phase, spec, q) {
      assert Determine(NoPhase, spec, q, events[k].order) == Continue;
      ContinueIsIntended(spec, q, events[k].order);
    }
  }

  /** Once a reconcile has told the user that failover is allowed, and remembered it, a failover to a cluster
      that answers gets through, whatever the VRGs look like by then. */
  lemma AllowedFailoverGetsThrough(states: seq<State>, events: seq<Event>, k: nat)
    requires IsRun(states, events) && k + 2 < |events| && states[k].phase in {NoPhase, WaitForUser}
    requires AllowedAt(states, events, k)
    requires events[k + 1].Edit? && events[k + 1].spec.action == Some(Failover)
    requires Possible(events[k + 2]) && events[k + 2].Reconcile? && events[k + 2].q.Some?
    requires var q := events[k + 2].q.value; q.managed && q.reached > 0 && events[k + 1].spec.failoverCluster != q.failed
    ensures states[k + 1].phase == WaitForUser
    ensures PassesGate(states[k + 2].phase, states[k + 2].spec, events[k + 2].q, events[k + 2].order)
  {
    assert states[k + 1].phase == WaitForUser;
    assert states[k + 2] == states[k + 1].(spec := events[k + 1].spec);
    ChosenFailoverContinues(states[k + 2].spec, events[k + 2].q.value, events[k + 2].order);
  }
}
