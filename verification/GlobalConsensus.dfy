/** Consensus among the DRPCs that share a global VolumeGroupReplication label: none of them may
    act until all of them ask for the same action on the same cluster. */
module GlobalConsensus {
  import opened Options
  import opened DRTypes

  datatype Member<C> = Member(namespace: string, name: string, group: string,
                              action: Option<Action>, failoverCluster: C, preferredCluster: C)

  function Target<C>(m: Member<C>): C {
    if m.action == Some(Relocate) then m.preferredCluster else m.failoverCluster
  }

  predicate SameObject<C>(a: Member<C>, b: Member<C>) {
    a.namespace == b.namespace && a.name == b.name
  }

  predicate Agrees<C(==)>(self: Member<C>, other: Member<C>) {
    self.action == other.action && Target(self) == Target(other)
  }

  /** The other DRPCs of the group of `self`. */
  predicate IsPeer<C>(self: Member<C>, m: Member<C>) {
    m.group == self.group && !SameObject(m, self)
  }

  /** Consensus, as the users of a group understand it. */
  ghost predicate InConsensus<C>(self: Member<C>, all: seq<Member<C>>) {
    self.action.Some? && forall m | m in all && IsPeer(self, m) :: Agrees(self, m)
  }

  /** The check a reconcile makes; `listed` is `None` when the DRPCs cannot be listed.
      `pending` names the members that disagree. */
  method IsGlobalActionInConsensus<C(==)>(self: Member<C>, listed: Option<seq<Member<C>>>)
    returns (met: bool, pending: seq<(string, string)>)
    ensures met <==> listed.Some? && InConsensus(self, listed.value)
    ensures listed.Some? && self.action.Some? ==>
              forall m | m in listed.value && IsPeer(self, m) :: (m.namespace, m.name) in pending || Agrees(self, m)
    ensures listed.None? || self.action.None? || met ==> pending == []
    ensures forall p | p in pending ::
              exists m :: m in listed.value && IsPeer(self, m) && p == (m.namespace, m.name) && !Agrees(self, m)
  {
    pending := [];
    if self.action.None? || listed.None? { return false, pending; }
    var target := if self.action == Some(Relocate) then self.preferredCluster else self.failoverCluster;
    var items := listed.value;
    assert self.action.value == Failover || self.action.value == Relocate;
    for idx := 0 to |items|
      invariant forall i | 0 <= i < idx && IsPeer(self, items[i]) ::
                  (items[i].namespace, items[i].name) in pending || Agrees(self, items[i])
      invariant forall p | p in pending ::
                  exists m :: m in items && IsPeer(self, m) && p == (m.namespace, m.name) && !Agrees(self, m)
    {
      var drpc := items[idx];
      // the list call only returns the DRPCs that carry the label
      if drpc.group != self.group { continue; }
      if drpc.name == self.name && drpc.namespace == self.namespace { continue; }
      if drpc.action != self.action ||
         (self.action == Some(Failover) && drpc.failoverCluster != target) ||
         (self.action == Some(Relocate) && drpc.preferredCluster != target)
      {
        assert drpc in items && IsPeer(self, drpc) && !Agrees(self, drpc);
        ghost var before := pending;
        pending := pending + [(drpc.namespace, drpc.name)];
        assert forall x | x in before :: x in pending;
        assert pending[|before|] in pending;
      }
    }
    met := pending == [];
    if !met {
      assert pending[0] in pending;
    }
  }

  ghost predicate DistinctObjects<C>(all: seq<Member<C>>) {
    forall a, b | a in all && b in all && SameObject(a, b) :: a == b
  }

  /** A member of the list passes if and only if every DRPC with its label, itself included, has
      its action and its target. */
  lemma ConsensusIsUnanimity<C>(self: Member<C>, all: seq<Member<C>>)
    requires self in all && DistinctObjects(all)
    ensures InConsensus(self, all) <==>
            && self.action.Some?
            && forall m | m in all && m.group == self.group ::
                 && m.action == self.action
                 && (m.action == Some(Failover) ==> m.failoverCluster == self.failoverCluster)
                 && (m.action == Some(Relocate) ==> m.preferredCluster == self.preferredCluster)
  {
    assert self.action.Some? ==> self.action.value == Failover || self.action.value == Relocate;
    if InConsensus(self, all) {
      forall m | m in all && m.group == self.group ensures Agrees(self, m) {
        if SameObject(m, self) { assert m == self; }
      }
    }
  }

  /** Within one snapshot of the specs, the members of a group pass or wait together. */
  lemma ConsensusIsSymmetric<C>(a: Member<C>, b: Member<C>, all: seq<Member<C>>)
    requires a in all && b in all && a.group == b.group && DistinctObjects(all)
    requires InConsensus(a, all)
    ensures InConsensus(b, all) && a.action == b.action && Target(a) == Target(b)
  {
    ConsensusIsUnanimity(a, all);
    ConsensusIsUnanimity(b, all);
    assert Agrees(a, b);
    forall m | m in all && m.group == b.group ensures Agrees(b, m) {
      assert Agrees(a, m);
    }
  }
}
