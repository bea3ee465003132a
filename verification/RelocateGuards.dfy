/** What a relocation has checked before it touches the old home, over every execution. */
module RelocateGuards {
  import opened Options
  import opened DRTypes
  import opened PlacementDecisions
  import opened Protocol
  import opened RelocateSafety
  import GC = GlobalConsensus

  /** The relocation has begun to take the workload away from `q`: a final sync is asked for, its MW is no
      longer Primary, or the placement no longer names it. */
  predicate Disturbed(r: Run, q: Cluster, s: State) {
    || !WorkIs(s.mw, q, Primary) || s.mw[q].prepareForFinalSync || s.mw[q].runFinalSync
    || Home(r.kind, s.decisions) != Some(q)
  }

  /** A reconcile is under way that saw `q` as a Primary with its data ready and its cluster data protected,
      both for the generation it read, found a target that is not fenced if the policy is synchronous, and
      a group whose other members all agree. */
  ghost predicate SawSafe(s: State, p: Cluster) {
    && s.hub.Busy? && Peer(p) in s.hub.ctx.views
    && var x, seen := s.hub.ctx, s.hub.ctx.views[Peer(p)];
    && seen.spec.role == Primary
    && seen.status.dataReady == Condition(true, seen.generation)
    && seen.status.clusterDataProtected == Condition(true, seen.generation)
    && (x.env.sync ==> p in x.env.drClusters
                       && x.env.drClusters[p].fenced != Condition(true, x.env.drClusters[p].generation))
    && (x.env.group.Group? ==> x.env.group.listed.Some? && GC.InConsensus(x.env.group.self, x.env.group.listed.value))
  }

  ghost predicate OnceSafe(x: Execution, p: Cluster, k: nat) {
    exists j: nat :: j < k && j < |x.states| && SawSafe(x.states[j], p)
  }

  /** Only a reconcile that saw all of this disturbs an old home that was not disturbed before. */
  lemma DisturbedBy(r: Run, p: Cluster, s: State, e: Event)
    requires IsRelocation(r, p) && RolesInv(r, p, s) && Enabled(r, s, e)
    requires !Disturbed(r, Peer(p), s) && Disturbed(r, Peer(p), Next(r, s, e))
    ensures SawSafe(s, p)
  {
    LookFacts(r, s, e, p);
    assert e.Write?;
    var a := e.act;
    assert WorkIs(s.mw, Peer(p), Primary);
    assert !PrimarySomewhere(s, p);
    assert a.PrepareSync? || a.RunSync? || a.ClearPlacement? || a.Demote?;
  }

  /** The old home is left only after it was seen safe to leave: whenever a final sync is asked of it, it
      is demoted, or the placement names it no longer, a reconcile before that had checked everything. */
  lemma {:induction false} LeftOnlyWhenSafe(r: Run, p: Cluster, x: Execution, k: nat)
    requires Relocation(r, p, x) && k < |x.states| && Disturbed(r, Peer(p), x.states[k])
    ensures OnceSafe(x, p, k)
  {
    if k == 0 {
      HomeOfOne(r.kind, x.states[0].decisions);
    } else {
      RolesAlways(r, p, x, k - 1);
      assert StepOf(r, x, k - 1);
      if Disturbed(r, Peer(p), x.states[k - 1]) {
        LeftOnlyWhenSafe(r, p, x, k - 1);
      } else {
        DisturbedBy(r, p, x.states[k - 1], x.events[k - 1]);
      }
    }
  }
}
