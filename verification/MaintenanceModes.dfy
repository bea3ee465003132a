/** Storage maintenance modes: which ones a regional failover needs, when they count as active,
    and when the manifest that asks for one may be deleted. */
module MaintenanceModes {
  import opened Options
  import opened DRTypes

  datatype Mode = FailoverMode | OtherMode

  /** The storage identifiers of a protected PVC: provisioner, replication ID and its modes. */
  datatype StorageId = StorageId(provisioner: string, replicationID: string, modes: seq<Mode>)

  /** A maintenance mode as DRCluster status reports it; `activated` is its FailoverActivated condition. */
  datatype ModeStatus = ModeStatus(provisioner: string, targetID: string, activated: Option<bool>)

  function Key(provisioner: string, target: string): string { provisioner + target }

  function KeyOf(id: StorageId): string { Key(id.provisioner, id.replicationID) }

  // ---------------------------------------------------------------------------
  // What a failover requires
  // ---------------------------------------------------------------------------

  /** The PVC asks for the failover maintenance mode of its backend. */
  predicate Asks(id: StorageId) { FailoverMode in id.modes }

  /** `r` holds an entry for each backend that some PVC asks for, and nothing else. */
  ghost predicate CoversExactly(pvcs: seq<StorageId>, r: map<string, StorageId>) {
    && (forall i | 0 <= i < |pvcs| && Asks(pvcs[i]) :: KeyOf(pvcs[i]) in r)
    && (forall k | k in r :: r[k] in pvcs && Asks(r[k]) && KeyOf(r[k]) == k)
  }

  /** The first PVC that asks for a backend stands for all of them. */
  function Required(pvcs: seq<StorageId>): map<string, StorageId> {
    if pvcs == [] then map[]
    else
      var front, last := Required(pvcs[..|pvcs| - 1]), pvcs[|pvcs| - 1];
      if Asks(last) && KeyOf(last) !in front then front[KeyOf(last) := last] else front
  }

  lemma {:induction false} RequiredCovers(pvcs: seq<StorageId>)
    ensures CoversExactly(pvcs, Required(pvcs))
  {
    if pvcs != [] {
      var n := |pvcs| - 1;
      RequiredCovers(pvcs[..n]);
      assert forall i | 0 <= i < n :: pvcs[i] == pvcs[..n][i];
    }
  }

  method RequiredActivations(pvcs: seq<StorageId>) returns (r: map<string, StorageId>)
    ensures r == Required(pvcs) && CoversExactly(pvcs, r)
  {
    r := map[];
    for i := 0 to |pvcs|
      invariant r == Required(pvcs[..i])
    {
      assert pvcs[..i + 1][..i] == pvcs[..i];
      if |pvcs[i].modes| == 0 { continue; }
      if FailoverMode !in pvcs[i].modes { continue; }
      var key := pvcs[i].provisioner + pvcs[i].replicationID;
      if key !in r { r := r[key := pvcs[i]]; }
    }
    assert pvcs[..|pvcs|] == pvcs;
    RequiredCovers(pvcs);
  }

  /** The first status entry of the backend decides. */
  function Activated(status: seq<ModeStatus>, id: StorageId): bool {
    if status == [] then false
    else if status[0].provisioner == id.provisioner && status[0].targetID == id.replicationID
    then status[0].activated == Some(true)
    else Activated(status[1..], id)
  }

  /** The status entry is about the backend of the PVC. */
  predicate About(m: ModeStatus, id: StorageId) {
    m.provisioner == id.provisioner && m.targetID == id.replicationID
  }

  /** Entry `i` is the first one about the backend, and its FailoverActivated condition is True. */
  predicate ReportedOn(status: seq<ModeStatus>, id: StorageId, i: nat) {
    && i < |status| && About(status[i], id) && status[i].activated == Some(true)
    && forall j | 0 <= j < i :: !About(status[j], id)
  }

  /** Activated means reported so: by a True condition of the first entry about the backend. */
  lemma {:induction false} ActivatedMeans(status: seq<ModeStatus>, id: StorageId)
    ensures Activated(status, id) <==> exists i: nat :: ReportedOn(status, id, i)
  {
    if status != [] {
      var rest := status[1..];
      ActivatedMeans(rest, id);
      if About(status[0], id) {
        assert status[0].activated == Some(true) ==> ReportedOn(status, id, 0);
      } else {
        if i: nat :| ReportedOn(rest, id, i) {
          assert forall j | 0 < j < i + 1 :: status[j] == rest[j - 1];
          assert ReportedOn(status, id, i + 1);
        }
        if i: nat :| ReportedOn(status, id, i) {
          assert forall j | 0 <= j < i - 1 :: rest[j] == status[j + 1];
          assert ReportedOn(rest, id, i - 1);
        }
      }
    }
  }

  method CheckActivation(status: seq<ModeStatus>, id: StorageId) returns (b: bool)
    ensures b == Activated(status, id)
    ensures b <==> exists i: nat :: ReportedOn(status, id, i)
  {
    ActivatedMeans(status, id);
    for i := 0 to |status|
      invariant Activated(status, id) == Activated(status[i..], id)
    {
      assert status[i..][1..] == status[i + 1..];
      if status[i].provisioner != id.provisioner || status[i].targetID != id.replicationID { continue; }
      return status[i].activated == Some(true);
    }
    return false;
  }

  /** Every backend the PVCs ask for is in its failover mode. */
  ghost predicate AllActivated(status: seq<ModeStatus>, pvcs: seq<StorageId>) {
    forall i | 0 <= i < |pvcs| && Asks(pvcs[i]) :: Activated(status, pvcs[i])
  }

  /** No two PVCs reach the same key from different provisioner and ID. */
  ghost predicate KeysUnambiguous(pvcs: seq<StorageId>) {
    forall a, b | a in pvcs && b in pvcs && KeyOf(a) == KeyOf(b) ::
      a.provisioner == b.provisioner && a.replicationID == b.replicationID
  }

  lemma {:induction false} ActivationDependsOnBackend(status: seq<ModeStatus>, a: StorageId, b: StorageId)
    requires a.provisioner == b.provisioner && a.replicationID == b.replicationID
    ensures Activated(status, a) == Activated(status, b)
  {
    if status != [] { ActivationDependsOnBackend(status[1..], a, b); }
  }

  /** The PVC that stands for each backend finds it in its failover mode. */
  ghost predicate ModesOn(status: seq<ModeStatus>, pvcs: seq<StorageId>) {
    forall k | k in Required(pvcs) :: Activated(status, Required(pvcs)[k])
  }

  /** Every PVC that asks is covered by a mode of its key that is reported with a True condition; all
      modes active is sufficient, and with unambiguous keys necessary as well. */
  lemma ModesOnMeans(status: seq<ModeStatus>, pvcs: seq<StorageId>)
    ensures ModesOn(status, pvcs) ==> forall id | id in pvcs && FailoverMode in id.modes ::
              exists rep, i: nat :: rep in pvcs && ReportedOn(status, rep, i)
                                    && rep.provisioner + rep.replicationID == id.provisioner + id.replicationID
    ensures AllActivated(status, pvcs) ==> ModesOn(status, pvcs)
    ensures KeysUnambiguous(pvcs) ==> (ModesOn(status, pvcs) <==> AllActivated(status, pvcs))
  {
    var required := Required(pvcs);
    RequiredCovers(pvcs);
    if ModesOn(status, pvcs) {
      forall i | 0 <= i < |pvcs| && Asks(pvcs[i])
        ensures exists rep, j: nat :: rep in pvcs && ReportedOn(status, rep, j)
                  && rep.provisioner + rep.replicationID == pvcs[i].provisioner + pvcs[i].replicationID
        ensures KeysUnambiguous(pvcs) ==> Activated(status, pvcs[i])
      {
        var rep := required[KeyOf(pvcs[i])];
        ActivatedMeans(status, rep);
        var j: nat :| ReportedOn(status, rep, j);
        assert rep in pvcs && KeyOf(rep) == KeyOf(pvcs[i]) && ReportedOn(status, rep, j);
        if KeysUnambiguous(pvcs) { ActivationDependsOnBackend(status, rep, pvcs[i]); }
      }
    }
    if AllActivated(status, pvcs) {
      forall k | k in required ensures Activated(status, required[k]) {
        var i :| 0 <= i < |pvcs| && pvcs[i] == required[k];
      }
    }
  }

  method CheckRequired(status: seq<ModeStatus>, pvcs: seq<StorageId>) returns (b: bool)
    ensures b <==> ModesOn(status, pvcs)
  {
    var required := RequiredActivations(pvcs);
    var todo := required.Keys;
    while todo != {}
      invariant todo <= required.Keys
      invariant forall k | k in required && k !in todo :: Activated(status, required[k])
    {
      var k :| k in todo;
      var ok := CheckActivation(status, required[k]);
      if !ok { return false; }
      todo := todo - {k};
    }
    return true;
  }

  // ---------------------------------------------------------------------------
  // The DRPCs that are failing over to a cluster
  // ---------------------------------------------------------------------------

  /** A DRPolicy; `found` counts its DRClusters, `None` when they cannot be read, and
      `metro` is `None` when the kind of policy cannot be told. */
  datatype Policy = Policy(name: string, clusters: set<string>, found: Option<nat>, metro: Option<bool>)

  /** The VRGs of a DRPC are `None` while they, or the policy they hang on, cannot be read;
      `archived` are the PVCs of the last primary found in the object store. */
  datatype DRPC = DRPC(name: string, policy: string, deleted: bool, action: Option<Action>, failoverCluster: string,
                       generation: nat, available: Option<(bool, nat)>, vrgs: Option<seq<VRGView>>,
                       archived: Option<seq<StorageId>>)

  datatype VRGView = VRGView(cluster: string, primary: bool, pvcs: seq<StorageId>)

  predicate Available(d: DRPC) { d.available == Some((true, d.generation)) }

  predicate FailingOver(d: DRPC, policy: string, cluster: string) {
    && d.policy == policy && !d.deleted
    && d.action == Some(Failover) && d.failoverCluster == cluster
    && !Available(d)
  }

  function ForPolicy(drpcs: seq<DRPC>, policy: string, cluster: string): seq<DRPC> {
    if drpcs == [] then []
    else
      var front := ForPolicy(drpcs[..|drpcs| - 1], policy, cluster);
      if FailingOver(drpcs[|drpcs| - 1], policy, cluster) then front + [drpcs[|drpcs| - 1]] else front
  }

  lemma {:induction false} ForPolicyExact(drpcs: seq<DRPC>, policy: string, cluster: string)
    ensures forall d :: d in ForPolicy(drpcs, policy, cluster) <==> d in drpcs && FailingOver(d, policy, cluster)
  {
    if drpcs != [] {
      var n := |drpcs| - 1;
      ForPolicyExact(drpcs[..n], policy, cluster);
      assert drpcs == drpcs[..n] + [drpcs[n]];
    }
  }

  method FailingOverForPolicy(drpcs: seq<DRPC>, policy: string, cluster: string) returns (r: seq<DRPC>)
    ensures r == ForPolicy(drpcs, policy, cluster)
  {
    r := [];
    for idx := 0 to |drpcs|
      invariant r == ForPolicy(drpcs[..idx], policy, cluster)
    {
      assert drpcs[..idx + 1][..idx] == drpcs[..idx];
      var drpc := drpcs[idx];
      if drpc.policy != policy { continue; }
      if drpc.deleted { continue; }
      if !(drpc.action == Some(Failover) && drpc.failoverCluster == cluster) { continue; }
      if drpc.available.Some? && drpc.available.value.0 && drpc.available.value.1 == drpc.generation { continue; }
      r := r + [drpc];
    }
    assert drpcs[..|drpcs|] == drpcs;
  }

  /** The scan over the policies.  A metro policy of the cluster ends it, and a policy with fewer
      than two DRClusters throws away what was found before. */
  function Listing(policies: seq<Policy>, drpcs: seq<DRPC>, cluster: string, acc: seq<DRPC>): Option<seq<DRPC>>
    decreases |policies|
  {
    if policies == [] then Some(acc)
    else
      var p := policies[0];
      if cluster !in p.clusters then Listing(policies[1..], drpcs, cluster, acc)
      else if p.found.None? then None
      else if p.found.value <= 1 then Some([])
      else if p.metro.None? then None
      else if p.metro.value then Some(acc)
      else Listing(policies[1..], drpcs, cluster, acc + ForPolicy(drpcs, p.name, cluster))
  }

  method DRPCsFailingOverToCluster(policies: seq<Policy>, drpcs: seq<DRPC>, cluster: string)
    returns (r: Option<seq<DRPC>>)
    ensures r == Listing(policies, drpcs, cluster, [])
  {
    var acc: seq<DRPC> := [];
    for idx := 0 to |policies|
      invariant Listing(policies, drpcs, cluster, []) == Listing(policies[idx..], drpcs, cluster, acc)
    {
      var p := policies[idx];
      assert policies[idx..][1..] == policies[idx + 1..];
      if cluster in p.clusters {
        if p.found.None? { return None; }
        if p.found.value <= 1 { return Some([]); }
        if p.metro.None? { return None; }
        if p.metro.value { return Some(acc); }
        var some := FailingOverForPolicy(drpcs, p.name, cluster);
        acc := acc + some;
      }
    }
    return Some(acc);
  }

  /** Every policy of the cluster can be read and has its two DRClusters. */
  ghost predicate PoliciesReadable(policies: seq<Policy>, cluster: string) {
    forall p | p in policies && cluster in p.clusters :: p.found.Some? && p.found.value > 1 && p.metro.Some?
  }

  predicate Regional(p: Policy, cluster: string) { cluster in p.clusters && p.metro == Some(false) }

  predicate Metro(p: Policy, cluster: string) { cluster in p.clusters && p.metro == Some(true) }

  /** `d` fails over to the cluster under a regional policy that stands before every metro one. */
  ghost predicate ListedFirst(policies: seq<Policy>, cluster: string, d: DRPC) {
    && !d.deleted && d.action == Some(Failover) && d.failoverCluster == cluster && d.available != Some((true, d.generation))
    && exists i :: 0 <= i < |policies| && Regional(policies[i], cluster) && policies[i].name == d.policy
                   && forall j | 0 <= j < i :: !Metro(policies[j], cluster)
  }

  /** Exactly which DRPCs the scan returns. */
  lemma {:induction false} ListingExact(policies: seq<Policy>, drpcs: seq<DRPC>, cluster: string, acc: seq<DRPC>)
    requires PoliciesReadable(policies, cluster)
    ensures Listing(policies, drpcs, cluster, acc).Some?
    ensures forall d :: d in Listing(policies, drpcs, cluster, acc).value <==>
                        d in acc || (d in drpcs && ListedFirst(policies, cluster, d))
    decreases |policies|
  {
    if policies != [] {
      var p, rest := policies[0], policies[1..];
      assert PoliciesReadable(rest, cluster);
      assert p in policies;
      if Metro(p, cluster) {
        assert forall d :: !ListedFirst(policies, cluster, d);
      } else {
        var acc' := if cluster in p.clusters then acc + ForPolicy(drpcs, p.name, cluster) else acc;
        ListingExact(rest, drpcs, cluster, acc');
        ForPolicyExact(drpcs, p.name, cluster);
        forall d ensures ListedFirst(policies, cluster, d) <==>
                         ListedFirst(rest, cluster, d) || (Regional(p, cluster) && FailingOver(d, p.name, cluster)) {
          ListedFirstStep(policies, cluster, d);
        }
      }
    }
  }

  lemma ListedFirstStep(policies: seq<Policy>, cluster: string, d: DRPC)
    requires policies != [] && !Metro(policies[0], cluster)
    ensures ListedFirst(policies, cluster, d) <==>
            ListedFirst(policies[1..], cluster, d) ||
            (Regional(policies[0], cluster) && FailingOver(d, policies[0].name, cluster))
  {
    var rest := policies[1..];
    if ListedFirst(policies, cluster, d) {
      var i :| 0 <= i < |policies| && Regional(policies[i], cluster) && policies[i].name == d.policy
               && forall j | 0 <= j < i :: !Metro(policies[j], cluster);
      if i > 0 {
        assert rest[i - 1] == policies[i];
        assert forall j | 0 <= j < i - 1 :: rest[j] == policies[j + 1];
      }
    }
    if ListedFirst(rest, cluster, d) {
      var i :| 0 <= i < |rest| && Regional(rest[i], cluster) && rest[i].name == d.policy
               && forall j | 0 <= j < i :: !Metro(rest[j], cluster);
      assert policies[i + 1] == rest[i];
      assert forall j | 0 < j < i + 1 :: policies[j] == rest[j - 1];
    }
  }

  /** The first policy of the cluster that is not a regional one with its two DRClusters decides what becomes
      of the scan: it fails if the DRClusters or the kind of policy cannot be read, and comes back empty,
      whatever was found before, if DRClusters are missing. */
  lemma {:induction false} ListingEndsAt(policies: seq<Policy>, drpcs: seq<DRPC>, cluster: string, acc: seq<DRPC>, i: nat)
    requires i < |policies| && cluster in policies[i].clusters
    requires forall j | 0 <= j < i && cluster in policies[j].clusters ::
               policies[j].metro == Some(false) && policies[j].found.Some? && policies[j].found.value >= 2
    ensures
      var p, r := policies[i], Listing(policies, drpcs, cluster, acc);
      && (p.found.None? || (p.found.value >= 2 && p.metro.None?) ==> r == None)
      && (p.found.Some? && p.found.value < 2 ==> r == Some([]))
    decreases |policies|
  {
    if i > 0 {
      var acc' := if cluster in policies[0].clusters then acc + ForPolicy(drpcs, policies[0].name, cluster) else acc;
      ListingEndsAt(policies[1..], drpcs, cluster, acc', i - 1);
    }
  }

  /** A DRPC that fails over under a regional policy is missed if and only if every regional
      policy of its name stands behind a metro policy of the same cluster. */
  lemma MissedExactly(policies: seq<Policy>, drpcs: seq<DRPC>, cluster: string, d: DRPC)
    requires PoliciesReadable(policies, cluster) && d in drpcs
    requires exists p :: p in policies && Regional(p, cluster) && FailingOver(d, p.name, cluster)
    ensures Listing(policies, drpcs, cluster, []).Some?
    ensures d !in Listing(policies, drpcs, cluster, []).value <==>
            forall i | 0 <= i < |policies| && Regional(policies[i], cluster) && policies[i].name == d.policy ::
              exists j :: 0 <= j < i && Metro(policies[j], cluster)
  {
    ListingExact(policies, drpcs, cluster, []);
    var p :| p in policies && Regional(p, cluster) && FailingOver(d, p.name, cluster);
    assert forall i | 0 <= i < |policies| && policies[i].name == d.policy :: FailingOver(d, policies[i].name, cluster);
    if !ListedFirst(policies, cluster, d) {
      forall i | 0 <= i < |policies| && Regional(policies[i], cluster) && policies[i].name == d.policy
        ensures exists j :: 0 <= j < i && Metro(policies[j], cluster)
      {
        assert FailingOver(d, policies[i].name, cluster);
      }
    }
  }

  // ---------------------------------------------------------------------------
  // Pruning
  // ---------------------------------------------------------------------------

  /** The manifest of a maintenance mode; `readable` is whether its content can be decoded. */
  datatype Manifest = Manifest(name: string, provisioner: string, targetID: string, readable: bool)

  /** The DRPC may still need the backend: some PVC of its VRGs is on it, or they cannot be read. */
  predicate UsesBackend(d: DRPC, provisioner: string, target: string) {
    d.vrgs.None? ||
    exists v, id :: v in d.vrgs.value && id in v.pvcs && id.provisioner == provisioner && id.replicationID == target
  }

  method DrpcUsesStorageBackend(d: DRPC, provisioner: string, target: string) returns (b: bool)
    ensures b == UsesBackend(d, provisioner, target)
  {
    if d.vrgs.None? { return true; }
    var vrgs := d.vrgs.value;
    for i := 0 to |vrgs|
      invariant forall j, id | 0 <= j < i && id in vrgs[j].pvcs :: !(id.provisioner == provisioner && id.replicationID == target)
    {
      var pvcs := vrgs[i].pvcs;
      for k := 0 to |pvcs|
        invariant forall m | 0 <= m < k :: !(pvcs[m].provisioner == provisioner && pvcs[m].replicationID == target)
      {
        if pvcs[k].provisioner == provisioner && pvcs[k].replicationID == target {
          assert vrgs[i] in vrgs && pvcs[k] in vrgs[i].pvcs;
          return true;
        }
      }
    }
    return false;
  }

  /** What the hub can see when it decides about a mode of the cluster. */
  datatype World = World(policies: seq<Policy>, drpcs: seq<DRPC>, cluster: string)

  function FailingOverHere(w: World): Option<seq<DRPC>> {
    Listing(w.policies, w.drpcs, w.cluster, [])
  }

  /** A listing that fails keeps every mode. */
  predicate StillNeeded(w: World, provisioner: string, target: string) {
    match FailingOverHere(w)
    case None => true
    case Some(ds) => exists d :: d in ds && !Available(d) && UsesBackend(d, provisioner, target)
  }

  method ModeStillNeeded(w: World, provisioner: string, target: string) returns (b: bool)
    ensures b == StillNeeded(w, provisioner, target)
  {
    var ds := DRPCsFailingOverToCluster(w.policies, w.drpcs, w.cluster);
    if ds.None? { return true; }
    for i := 0 to |ds.value|
      invariant forall j | 0 <= j < i :: Available(ds.value[j]) || !UsesBackend(ds.value[j], provisioner, target)
    {
      var d := ds.value[i];
      if d.available.None? || !d.available.value.0 || d.available.value.1 != d.generation {
        var uses := DrpcUsesStorageBackend(d, provisioner, target);
        if uses {
          assert d in ds.value && !Available(d);
          return true;
        }
      }
    }
    return false;
  }

  /** The last known primary: the first VRG visited that is Primary on another cluster. */
  function LastPrimary(vrgs: seq<VRGView>, cluster: string): Option<VRGView> {
    if vrgs == [] then None
    else if vrgs[0].cluster != cluster && vrgs[0].primary then Some(vrgs[0])
    else LastPrimary(vrgs[1..], cluster)
  }

  /** The PVCs a DRPC goes by: those of its last known primary, or else those in the object store;
      none while its VRGs cannot be read. */
  function Considered(d: DRPC, cluster: string): Option<seq<StorageId>> {
    if d.vrgs.None? then None
    else match LastPrimary(d.vrgs.value, cluster)
      case Some(v) => Some(v.pvcs)
      case None => d.archived
  }

  predicate AsksFor(d: DRPC, cluster: string, id: StorageId) {
    Considered(d, cluster).Some? && id in Considered(d, cluster).value && Asks(id)
  }

  /** `all` has an entry for every key a listed DRPC asks for, and every entry is one a DRPC asks for. */
  ghost predicate Collects(ds: seq<DRPC>, cluster: string, all: map<string, StorageId>) {
    && (forall i, id | 0 <= i < |ds| && AsksFor(ds[i], cluster, id) :: KeyOf(id) in all)
    && (forall k | k in all :: KeyOf(all[k]) == k && exists i :: 0 <= i < |ds| && AsksFor(ds[i], cluster, all[k]))
  }

  lemma CollectOne(ds: seq<DRPC>, i: nat, cluster: string, all: map<string, StorageId>, pvcs: seq<StorageId>)
    requires i < |ds| && Collects(ds[..i], cluster, all) && Considered(ds[i], cluster) == Some(pvcs)
    ensures Collects(ds[..i + 1], cluster, Required(pvcs) + all)
  {
    var next, n := ds[..i + 1], Required(pvcs) + all;
    RequiredCovers(pvcs);
    forall j, id | 0 <= j < |next| && AsksFor(next[j], cluster, id) ensures KeyOf(id) in n {
      if j < i {
        assert next[j] == ds[..i][j];
      } else {
        var m :| 0 <= m < |pvcs| && pvcs[m] == id;
      }
    }
    forall k | k in n ensures KeyOf(n[k]) == k && exists j :: 0 <= j < |next| && AsksFor(next[j], cluster, n[k]) {
      if k in all {
        var j :| 0 <= j < i && AsksFor(ds[..i][j], cluster, all[k]);
        assert AsksFor(next[j], cluster, n[k]);
      } else {
        assert AsksFor(next[i], cluster, n[k]);
      }
    }
  }

  lemma SkipOne(ds: seq<DRPC>, i: nat, cluster: string, all: map<string, StorageId>)
    requires i < |ds| && Collects(ds[..i], cluster, all) && Considered(ds[i], cluster).None?
    ensures Collects(ds[..i + 1], cluster, all)
  {
    var next := ds[..i + 1];
    assert forall j | 0 <= j < i :: next[j] == ds[..i][j];
    forall k | k in all ensures exists j :: 0 <= j < |next| && AsksFor(next[j], cluster, all[k]) {
      var j :| 0 <= j < i && AsksFor(ds[..i][j], cluster, all[k]);
      assert AsksFor(next[j], cluster, all[k]);
    }
  }

  class DRClusterInstance {
    var manifests: seq<Manifest>
    var survivors: map<string, Manifest>
    var requeue: bool

    constructor (manifests: seq<Manifest>)
      ensures this.manifests == manifests && survivors == map[] && !requeue
    {
      this.manifests, survivors, requeue := manifests, map[], false;
    }

    /** Collects the required modes of every DRPC failing over to the cluster.  A DRPC whose
        VRGs cannot be read contributes none and asks for another reconcile. */
    method ActivationsRequired(w: World) returns (all: Option<map<string, StorageId>>)
      modifies this`requeue
      ensures all.None? <==> FailingOverHere(w).None?
      ensures all.Some? ==> Collects(FailingOverHere(w).value, w.cluster, all.value)
      ensures requeue == (old(requeue) || all.None? || exists d :: d in FailingOverHere(w).value && d.vrgs.None?)
    {
      var listed := DRPCsFailingOverToCluster(w.policies, w.drpcs, w.cluster);
      if listed.None? {
        requeue := true;
        return None;
      }
      var ds := listed.value;
      var acc: map<string, StorageId> := map[];
      for i := 0 to |ds|
        invariant requeue == (old(requeue) || exists j :: 0 <= j < i && ds[j].vrgs.None?)
        invariant Collects(ds[..i], w.cluster, acc)
      {
        ghost var before := ds[..i];
        assert forall j | 0 <= j < i :: ds[..i + 1][j] == before[j];
        if ds[i].vrgs.None? {
          requeue := true;
          assert Collects(ds[..i + 1], w.cluster, acc) by { SkipOne(ds, i, w.cluster, acc); }
          continue;
        }
        var primary := LastKnownPrimary(ds[i].vrgs.value, w.cluster);
        var pvcs := match primary case Some(v) => Some(v.pvcs) case None => ds[i].archived;
        if pvcs.Some? {
          CollectOne(ds, i, w.cluster, acc, pvcs.value);
          var required := RequiredActivations(pvcs.value);
          acc := required + acc;
        } else {
          SkipOne(ds, i, w.cluster, acc);
        }
      }
      assert ds[..|ds|] == ds;
      return Some(acc);
    }

    static method LastKnownPrimary(vrgs: seq<VRGView>, cluster: string) returns (r: Option<VRGView>)
      ensures r == LastPrimary(vrgs, cluster)
    {
      for i := 0 to |vrgs|
        invariant LastPrimary(vrgs, cluster) == LastPrimary(vrgs[i..], cluster)
      {
        assert vrgs[i..][1..] == vrgs[i + 1..];
        if vrgs[i].cluster == cluster { continue; }
        if vrgs[i].primary { return Some(vrgs[i]); }
      }
      return None;
    }

    /** Collects what is required, then prunes the rest; without a listing nothing is touched. */
    method HandleModes(w: World, deletable: Manifest -> bool)
      modifies this
      ensures FailingOverHere(w).None? ==> manifests == old(manifests) && requeue
      ensures forall m | m in manifests :: m in old(manifests)
      ensures FailingOverHere(w).Some? ==>
                forall m, d, id | m in old(manifests) && d in FailingOverHere(w).value && AsksFor(d, w.cluster, id)
                                  && Key(m.provisioner, m.targetID) == KeyOf(id) :: m in manifests
    {
      var all := ActivationsRequired(w);
      if all.None? { return; }
      ghost var items := manifests;
      PruneModes(all.value, w, deletable);
      KeptExact(items, all.value, w, deletable);
      forall m, d, id | m in items && d in FailingOverHere(w).value && AsksFor(d, w.cluster, id)
                        && Key(m.provisioner, m.targetID) == KeyOf(id)
        ensures m in manifests
      {
        CollectedModeIsKept(items, all.value, w, deletable, d, id, m);
      }
    }

    /** Looks at one manifest: does it stay, is its mode still wanted, is another reconcile due? */
    static method Examine(m: Manifest, required: map<string, StorageId>, w: World, deletable: Manifest -> bool)
      returns (stays: bool, wanted: bool, retry: bool)
      ensures stays == !(Prunable(m, required, w) && deletable(m))
      ensures wanted == (m.readable && !Prunable(m, required, w))
      ensures retry == (!m.readable || (Prunable(m, required, w) && !deletable(m)))
    {
      if !m.readable { return true, false, true; }
      var key := m.provisioner + m.targetID;
      if key !in required {
        var needed := ModeStillNeeded(w, m.provisioner, m.targetID);
        if needed { return true, true, false; }
        if !deletable(m) { return true, false, true; }
        return false, false, false;
      }
      return true, true, false;
    }

    /** Deletes the manifests nobody needs.  `deletable(m)` is whether the API accepts the delete. */
    method PruneModes(required: map<string, StorageId>, w: World, deletable: Manifest -> bool)
      modifies this
      ensures manifests == Kept(old(manifests), required, w, deletable)
      ensures SurvivorsOf(survivors, old(manifests), manifests, required, w)
      ensures requeue == (old(requeue) || RetryNeeded(old(manifests), required, w, deletable))
    {
      var items := manifests;
      var kept: seq<Manifest> := [];
      var live: map<string, Manifest> := map[];
      for idx := 0 to |items|
        invariant kept == Kept(items[..idx], required, w, deletable)
        invariant SurvivorsOf(live, items[..idx], kept, required, w)
        invariant requeue == (old(requeue) || RetryNeeded(items[..idx], required, w, deletable))
      {
        var m := items[idx];
        assert items[..idx + 1] == items[..idx] + [m];
        OneMoreManifest(items[..idx], m, kept, live, required, w, deletable);
        var stays, wanted, retry := Examine(m, required, w, deletable);
        if stays { kept := kept + [m]; }
        if wanted { live := live[m.targetID := m]; }
        if retry { requeue := true; }
      }
      assert items[..|items|] == items;
      manifests, survivors := kept, live;
    }
  }

  /** The survivors are kept manifests by target, and every manifest still wanted has one. */
  ghost predicate SurvivorsOf(live: map<string, Manifest>, items: seq<Manifest>, kept: seq<Manifest>,
                              required: map<string, StorageId>, w: World) {
    && (forall t | t in live :: live[t] in kept && live[t].targetID == t)
    && (forall i | 0 <= i < |items| && items[i].readable && !Prunable(items[i], required, w) :: items[i].targetID in live)
  }

  lemma OneMoreManifest(items: seq<Manifest>, m: Manifest, kept: seq<Manifest>, live: map<string, Manifest>,
                        required: map<string, StorageId>, w: World, deletable: Manifest -> bool)
    requires SurvivorsOf(live, items, kept, required, w)
    ensures
      var all, stays := items + [m], !(Prunable(m, required, w) && deletable(m));
      var more := if stays then kept + [m] else kept;
      && (kept == Kept(items, required, w, deletable) ==> more == Kept(all, required, w, deletable))
      && SurvivorsOf(if m.readable && !Prunable(m, required, w) then live[m.targetID := m] else live, all, more, required, w)
      && (RetryNeeded(all, required, w, deletable) <==>
            RetryNeeded(items, required, w, deletable) || !m.readable || (Prunable(m, required, w) && !deletable(m)))
  {
    var all := items + [m];
    assert all[..|items|] == items;
    assert forall i | 0 <= i < |items| :: all[i] == items[i];
    if RetryNeeded(items, required, w, deletable) {
      var i :| 0 <= i < |items| && (!items[i].readable || (Prunable(items[i], required, w) && !deletable(items[i])));
      assert !all[i].readable || (Prunable(all[i], required, w) && !deletable(all[i]));
    }
    if !m.readable || (Prunable(m, required, w) && !deletable(m)) {
      assert !all[|items|].readable || (Prunable(all[|items|], required, w) && !deletable(all[|items|]));
    }
  }

  /** The manifest may go: it can be read, nobody requires its key and no failover still needs it. */
  predicate Prunable(m: Manifest, required: map<string, StorageId>, w: World) {
    m.readable && Key(m.provisioner, m.targetID) !in required && !StillNeeded(w, m.provisioner, m.targetID)
  }

  /** Some manifest cannot be read, or cannot be deleted although it should be. */
  predicate RetryNeeded(items: seq<Manifest>, required: map<string, StorageId>, w: World, deletable: Manifest -> bool) {
    exists i :: 0 <= i < |items| && (!items[i].readable || (Prunable(items[i], required, w) && !deletable(items[i])))
  }

  function Kept(items: seq<Manifest>, required: map<string, StorageId>, w: World, deletable: Manifest -> bool): seq<Manifest> {
    if items == [] then []
    else
      var front := Kept(items[..|items| - 1], required, w, deletable);
      var m := items[|items| - 1];
      if Prunable(m, required, w) && deletable(m) then front else front + [m]
  }

  lemma {:induction false} KeptExact(items: seq<Manifest>, required: map<string, StorageId>, w: World, deletable: Manifest -> bool)
    ensures forall m | m in items :: m in Kept(items, required, w, deletable) || Prunable(m, required, w)
    ensures forall m | m in Kept(items, required, w, deletable) :: m in items && !(Prunable(m, required, w) && deletable(m))
  {
    if items != [] {
      var n := |items| - 1;
      assert items == items[..n] + [items[n]];
      KeptExact(items[..n], required, w, deletable);
    }
  }

  /** Pruning is fail-safe: a manifest disappears only when its key is not required, the DRPCs
      failing over to the cluster could be listed, and none of them uses the backend. */
  lemma DeletedOnlyIfUnneeded(items: seq<Manifest>, required: map<string, StorageId>, w: World,
                              deletable: Manifest -> bool, m: Manifest)
    requires m in items && m !in Kept(items, required, w, deletable)
    ensures Key(m.provisioner, m.targetID) !in required
    ensures FailingOverHere(w).Some?
    ensures forall d | d in FailingOverHere(w).value :: Available(d) || OffBackend(d, m.provisioner, m.targetID)
  {
    KeptExact(items, required, w, deletable);
  }

  /** Everything about the DRPC can be read, and none of its volumes is on the backend. */
  ghost predicate OffBackend(d: DRPC, provisioner: string, target: string) {
    d.vrgs.Some? && forall v, id | v in d.vrgs.value && id in v.pvcs ::
      id.provisioner != provisioner || id.replicationID != target
  }

  /** And it is deleted then, if it can be. */
  lemma UnneededIsDeleted(items: seq<Manifest>, required: map<string, StorageId>, w: World,
                          deletable: Manifest -> bool, m: Manifest)
    requires m.readable && deletable(m) && m.provisioner + m.targetID !in required && FailingOverHere(w).Some?
    requires forall d | d in FailingOverHere(w).value :: OffBackend(d, m.provisioner, m.targetID)
    ensures m !in Kept(items, required, w, deletable)
  {
    KeptExact(items, required, w, deletable);
  }

  lemma {:induction false} ListedAreUnavailable(policies: seq<Policy>, drpcs: seq<DRPC>, cluster: string, acc: seq<DRPC>)
    requires forall d | d in acc :: !Available(d)
    ensures Listing(policies, drpcs, cluster, acc).Some? ==>
              forall d | d in Listing(policies, drpcs, cluster, acc).value :: !Available(d)
    decreases |policies|
  {
    if policies != [] && cluster !in policies[0].clusters {
      ListedAreUnavailable(policies[1..], drpcs, cluster, acc);
    } else if policies != [] {
      ForPolicyExact(drpcs, policies[0].name, cluster);
      ListedAreUnavailable(policies[1..], drpcs, cluster, acc + ForPolicy(drpcs, policies[0].name, cluster));
    }
  }

  /** While the VRGs of one failing-over DRPC cannot be read, no mode of the cluster is pruned,
      although that DRPC adds nothing to the required modes. */
  lemma UnreadableKeepsEverything(items: seq<Manifest>, required: map<string, StorageId>, w: World,
                                  deletable: Manifest -> bool, d: DRPC)
    requires FailingOverHere(w).Some? && d in FailingOverHere(w).value && d.vrgs.None?
    ensures forall m | m in items :: m in Kept(items, required, w, deletable)
  {
    ListedAreUnavailable(w.policies, w.drpcs, w.cluster, []);
    KeptExact(items, required, w, deletable);
    forall m | m in items ensures !Prunable(m, required, w) {
      assert UsesBackend(d, m.provisioner, m.targetID);
    }
  }

  /** The mode a failing-over DRPC asks for is kept, whether or not it was collected as required. */
  lemma AskedModeIsKept(items: seq<Manifest>, required: map<string, StorageId>, w: World,
                        deletable: Manifest -> bool, d: DRPC, v: VRGView, id: StorageId, m: Manifest)
    requires FailingOverHere(w).Some? && d in FailingOverHere(w).value
    requires d.vrgs.Some? && v in d.vrgs.value && id in v.pvcs
    requires m in items && m.provisioner == id.provisioner && m.targetID == id.replicationID
    ensures m in Kept(items, required, w, deletable)
  {
    ListedAreUnavailable(w.policies, w.drpcs, w.cluster, []);
    KeptExact(items, required, w, deletable);
    assert UsesBackend(d, m.provisioner, m.targetID);
  }

  /** A mode that a listed DRPC asks for is kept, in particular one asked for only by the volumes of the
      object store, which no VRG in view mentions. */
  lemma CollectedModeIsKept(items: seq<Manifest>, required: map<string, StorageId>, w: World,
                            deletable: Manifest -> bool, d: DRPC, id: StorageId, m: Manifest)
    requires FailingOverHere(w).Some? && Collects(FailingOverHere(w).value, w.cluster, required)
    requires d in FailingOverHere(w).value && AsksFor(d, w.cluster, id)
    requires m in items && Key(m.provisioner, m.targetID) == KeyOf(id)
    ensures m in Kept(items, required, w, deletable)
  {
    KeptExact(items, required, w, deletable);
    var i :| 0 <= i < |FailingOverHere(w).value| && FailingOverHere(w).value[i] == d;
  }

  /** The object store decides when no VRG in view is Primary elsewhere. */
  lemma ArchivedVolumesAreConsidered(d: DRPC, cluster: string)
    requires d.vrgs.Some? && forall v | v in d.vrgs.value :: !(v.primary && v.cluster != cluster)
    ensures Considered(d, cluster) == d.archived
  {
    NoPrimaryElsewhere(d.vrgs.value, cluster);
  }

  /** The first VRG in view that is Primary elsewhere decides if there is one. */
  lemma PrimaryVolumesAreConsidered(d: DRPC, cluster: string, i: nat)
    requires d.vrgs.Some? && i < |d.vrgs.value| && d.vrgs.value[i].primary && d.vrgs.value[i].cluster != cluster
    requires forall j | 0 <= j < i :: !(d.vrgs.value[j].primary && d.vrgs.value[j].cluster != cluster)
    ensures Considered(d, cluster) == Some(d.vrgs.value[i].pvcs)
  {
    FirstPrimaryElsewhere(d.vrgs.value, cluster, i);
  }

  lemma {:induction false} FirstPrimaryElsewhere(vrgs: seq<VRGView>, cluster: string, i: nat)
    requires i < |vrgs| && vrgs[i].primary && vrgs[i].cluster != cluster
    requires forall j | 0 <= j < i :: !(vrgs[j].primary && vrgs[j].cluster != cluster)
    ensures LastPrimary(vrgs, cluster) == Some(vrgs[i])
  {
    if i > 0 { FirstPrimaryElsewhere(vrgs[1..], cluster, i - 1); }
  }

  lemma {:induction false} NoPrimaryElsewhere(vrgs: seq<VRGView>, cluster: string)
    requires forall v | v in vrgs :: !(v.primary && v.cluster != cluster)
    ensures LastPrimary(vrgs, cluster).None?
  {
    if vrgs != [] { NoPrimaryElsewhere(vrgs[1..], cluster); }
  }

  predicate Always(m: Manifest) { true }

  lemma OrderOfPolicies(metro: Policy, regional: Policy, d: DRPC, c: string, m: Manifest)
    requires Metro(metro, c) && metro.found == Some(2)
    requires Regional(regional, c) && regional.found == Some(2)
    requires FailingOver(d, regional.name, c) && UsesBackend(d, m.provisioner, m.targetID) && m.readable
    ensures Kept([m], map[], World([metro, regional], [d], c), Always) == []
    ensures Kept([m], map[], World([regional, metro], [d], c), Always) == [m]
  {
    var w1, w2 := World([metro, regional], [d], c), World([regional, metro], [d], c);
    assert FailingOverHere(w1) == Some([]);
    assert [d][..0] == [];
    assert ForPolicy([d], regional.name, c) == [d];
    assert w2.policies[1..] == [metro];
    assert FailingOverHere(w2) == Listing([metro], [d], c, [] + [d]);
    assert Listing([metro], [d], c, [] + [d]) == Some([d]);
    assert d in FailingOverHere(w2).value;
    assert [m][..0] == [];
    assert Prunable(m, map[], w1) && !Prunable(m, map[], w2);
  }

  /** A metro policy in front of a regional one hides the failovers of the regional one: their
      mode is pruned while they still need it, and kept when the policies are listed the other way. */
  lemma MetroFirstPrunesNeededMode() returns (metro: Policy, regional: Policy, d: DRPC, m: Manifest)
    ensures FailingOver(d, regional.name, "c2") && UsesBackend(d, m.provisioner, m.targetID)
    ensures Kept([m], map[], World([metro, regional], [d], "c2"), Always) == []
    ensures Kept([m], map[], World([regional, metro], [d], "c2"), Always) == [m]
  {
    var id := StorageId("csi", "r1", [FailoverMode]);
    var v := VRGView("c1", true, [id]);
    d := DRPC("app", "regional", false, Some(Failover), "c2", 1, None, Some([v]), None);
    metro := Policy("metro", {"c2", "c3"}, Some(2), Some(true));
    regional := Policy("regional", {"c1", "c2"}, Some(2), Some(false));
    m := Manifest("mode", "csi", "r1", true);
    assert v in d.vrgs.value && id in v.pvcs;
    OrderOfPolicies(metro, regional, d, "c2", m);
  }
}
