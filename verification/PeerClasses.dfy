/** Reconciliation of the peer classes of a VRG with those of its DRPolicy.

    A peer class says how the volumes of one storage class replicate between two clusters.  An entry
    a VRG already has may pick up new identifiers from the policy, but never a different replication
    scheme; entries for the storage classes of newly protected volumes are added.
 */
module PeerClasses {
  import opened Options

  datatype PeerClass = PeerClass(
    replicationID: string, groupReplicationID: string, storageID: seq<string>,
    storageClassName: string, clusterIDs: seq<string>,
    grouping: bool, offloaded: bool, global: bool)

  /** The same cluster IDs, in any order. */
  predicate EqualIDs(a: seq<string>, b: seq<string>) {
    |a| == |b| && (forall v | v in b :: v in a) && (forall v | v in a :: v in b)
  }

  method EqualClusterIDSlices(a: seq<string>, b: seq<string>) returns (r: bool)
    ensures r == EqualIDs(a, b)
  {
    if |a| != |b| { return false; }
    for i := 0 to |b|
      invariant forall j | 0 <= j < i :: b[j] in a
    {
      if b[i] !in a { return false; }
    }
    for i := 0 to |a|
      invariant forall j | 0 <= j < i :: a[j] in b
    {
      if a[i] !in b { return false; }
    }
    return true;
  }

  /** The entry is for this storage class between these clusters. */
  predicate Matches(e: PeerClass, sc: string, ids: seq<string>) {
    e.storageClassName == sc && EqualIDs(e.clusterIDs, ids)
  }

  predicate SameKey(a: PeerClass, b: PeerClass) { Matches(a, b.storageClassName, b.clusterIDs) }

  /** The entry and the offer describe the same scheme. */
  predicate Compatible(to: PeerClass, from: PeerClass) {
    && to.offloaded == from.offloaded && to.global == from.global && to.grouping == from.grouping
    && (to.replicationID == "" <==> from.replicationID == "")
  }

  /** An entry updated from the policy; `cg` asks for consistency groups. */
  function Merge(to: PeerClass, from: PeerClass, cg: bool): PeerClass {
    if !Compatible(to, from) then to else if cg then from.(grouping := true) else from
  }

  /** What an update must not change: the key and the scheme.  Grouping may only be turned on, and
      only on request. */
  predicate SchemeKept(before: PeerClass, after: PeerClass, cg: bool) {
    && SameKey(before, after)
    && before.offloaded == after.offloaded && before.global == after.global
    && (before.replicationID == "" <==> after.replicationID == "")
    && (before.grouping == after.grouping || (cg && after.grouping))
  }

  // ---------------------------------------------------------------------------
  // What the updates compute
  // ---------------------------------------------------------------------------

  /** The first entry for a key. */
  function Entry(l: seq<PeerClass>, sc: string, ids: seq<string>): Option<PeerClass> {
    if l == [] then None else if Matches(l[0], sc, ids) then Some(l[0]) else Entry(l[1..], sc, ids)
  }

  predicate Has(l: seq<PeerClass>, sc: string, ids: seq<string>) { Entry(l, sc, ids).Some? }

  /** The first entry with the key of `from` merged with it. */
  function UpdateFirst(l: seq<PeerClass>, from: PeerClass, cg: bool): seq<PeerClass> {
    if l == [] then []
    else if SameKey(l[0], from) then [Merge(l[0], from, cg)] + l[1..]
    else [l[0]] + UpdateFirst(l[1..], from, cg)
  }

  /** The entries after a volume of class `sc` was looked up in the policy: entries the VRG does not
      know are added, up to the first one it does know, which is updated if it was there before. */
  function ForClass(before: seq<PeerClass>, l: seq<PeerClass>, sc: string, policy: seq<PeerClass>, cg: bool): seq<PeerClass>
    decreases |policy|
  {
    if policy == [] then l
    else
      var from := policy[0];
      if from.storageClassName != sc then ForClass(before, l, sc, policy[1..], cg)
      else if Has(before, sc, from.clusterIDs) then UpdateFirst(l, from, cg)
      else if Has(l, sc, from.clusterIDs) then l
      else ForClass(before, l + [from], sc, policy[1..], cg)
  }

  /** All volumes in turn; those without a storage class are passed over. */
  function ForVolumes(before: seq<PeerClass>, l: seq<PeerClass>, volumes: seq<string>, policy: seq<PeerClass>, cg: bool)
    : seq<PeerClass>
    decreases |volumes|
  {
    if volumes == [] then l
    else
      var n := if volumes[0] == "" then l else ForClass(before, l, volumes[0], policy, cg);
      ForVolumes(before, n, volumes[1..], policy, cg)
  }

  function Updated(l: seq<PeerClass>, volumes: seq<string>, policy: seq<PeerClass>, cg: bool): seq<PeerClass> {
    ForVolumes(l, l, volumes, policy, cg)
  }

  lemma {:induction false} UpdateFirstAt(l: seq<PeerClass>, from: PeerClass, cg: bool, i: nat)
    requires i <= |l| && (forall j | 0 <= j < i :: !SameKey(l[j], from)) && (i < |l| ==> SameKey(l[i], from))
    ensures UpdateFirst(l, from, cg) == if i < |l| then l[i := Merge(l[i], from, cg)] else l
  {
    if l != [] && i > 0 {
      UpdateFirstAt(l[1..], from, cg, i - 1);
    }
  }

  // ---------------------------------------------------------------------------
  // The updates
  // ---------------------------------------------------------------------------

  /** The peer classes of one VRG. */
  class VRGPeerClasses {
    var list: seq<PeerClass>

    constructor (list: seq<PeerClass>)
      ensures this.list == list
    {
      this.list := list;
    }

    method UpdatePeerClass(from: PeerClass, cg: bool)
      modifies this
      ensures list == UpdateFirst(old(list), from, cg)
    {
      for i := 0 to |list|
        invariant list == old(list) && forall j | 0 <= j < i :: !SameKey(list[j], from)
      {
        var to := list[i];
        var sameClusters := EqualClusterIDSlices(to.clusterIDs, from.clusterIDs);
        if to.storageClassName != from.storageClassName || !sameClusters { continue; }
        UpdateFirstAt(list, from, cg, i);
        if to.offloaded != from.offloaded { return; }
        if to.global != from.global { return; }
        if to.replicationID == "" && from.replicationID == "" && to.grouping == from.grouping {
          list := list[i := if cg then from.(grouping := true) else from];
          return;
        }
        if to.replicationID != "" && from.replicationID != "" && to.grouping == from.grouping {
          list := list[i := if cg then from.(grouping := true) else from];
          return;
        }
        return;
      }
      UpdateFirstAt(list, from, cg, |list|);
    }

    /** `volumes` are the storage classes of the protected PVCs, empty where a PVC has none. */
    method UpdatePeers(volumes: seq<string>, policy: seq<PeerClass>, cg: bool)
      modifies this
      ensures list == Updated(old(list), volumes, policy, cg)
    {
      var before := list;
      for v := 0 to |volumes|
        invariant Updated(before, volumes, policy, cg) == ForVolumes(before, list, volumes[v..], policy, cg)
      {
        var sc := volumes[v];
        assert volumes[v..][1..] == volumes[v + 1..];
        if sc == "" { continue; }
        ghost var goal := ForClass(before, list, sc, policy, cg);
        for c := 0 to |policy|
          invariant goal == ForClass(before, list, sc, policy[c..], cg)
        {
          var from := policy[c];
          assert policy[c..][1..] == policy[c + 1..];
          if from.storageClassName != sc { continue; }
          var known := HasPeerClass(before, sc, from.clusterIDs);
          if known {
            UpdatePeerClass(from, cg);
            break;
          }
          known := HasPeerClass(list, sc, from.clusterIDs);
          if known { break; }
          list := list + [from];
        }
        assert list == goal;
      }
    }
  }

  method HasPeerClass(l: seq<PeerClass>, sc: string, ids: seq<string>) returns (r: bool)
    ensures r == Has(l, sc, ids)
  {
    for i := 0 to |l|
      invariant Has(l, sc, ids) == Has(l[i..], sc, ids)
    {
      assert l[i..][1..] == l[i + 1..];
      var sameClusters := EqualClusterIDSlices(l[i].clusterIDs, ids);
      if l[i].storageClassName == sc && sameClusters { return true; }
    }
    return false;
  }

  // ---------------------------------------------------------------------------
  // Schemes and keys
  // ---------------------------------------------------------------------------

  /** `n` keeps every entry of `l`, at its place and with its scheme, and may have more. */
  ghost predicate Keeps(l: seq<PeerClass>, n: seq<PeerClass>, cg: bool) {
    |l| <= |n| && forall i | 0 <= i < |l| :: SchemeKept(l[i], n[i], cg)
  }

  ghost predicate DistinctKeys(l: seq<PeerClass>) {
    forall i, j | 0 <= i < j < |l| :: !SameKey(l[i], l[j])
  }

  lemma KeepsTrans(a: seq<PeerClass>, b: seq<PeerClass>, c: seq<PeerClass>, cg: bool)
    requires Keeps(a, b, cg) && Keeps(b, c, cg)
    ensures Keeps(a, c, cg)
  {
    forall i | 0 <= i < |a| ensures SchemeKept(a[i], c[i], cg) {
      assert SchemeKept(a[i], b[i], cg) && SchemeKept(b[i], c[i], cg);
    }
  }

  lemma {:induction false} UpdateFirstKeeps(l: seq<PeerClass>, from: PeerClass, cg: bool)
    ensures Keeps(l, UpdateFirst(l, from, cg), cg) && |UpdateFirst(l, from, cg)| == |l|
  {
    if l != [] && !SameKey(l[0], from) {
      var rest := UpdateFirst(l[1..], from, cg);
      UpdateFirstKeeps(l[1..], from, cg);
      forall i | 0 <= i < |l| ensures SchemeKept(l[i], UpdateFirst(l, from, cg)[i], cg) {
        if i > 0 { assert SchemeKept(l[1..][i - 1], rest[i - 1], cg); }
      }
    }
  }

  /** Keys are compared up to the order of their cluster IDs, so an update does not disturb them. */
  lemma KeptKeysStayDistinct(l: seq<PeerClass>, n: seq<PeerClass>, cg: bool)
    requires Keeps(l, n, cg) && |n| == |l| && DistinctKeys(l)
    ensures DistinctKeys(n)
  {
    forall i, j | 0 <= i < j < |n| ensures !SameKey(n[i], n[j]) {
      assert SchemeKept(l[i], n[i], cg) && SchemeKept(l[j], n[j], cg);
      assert !SameKey(l[i], l[j]);
    }
  }

  lemma {:induction false} EntryExact(l: seq<PeerClass>, sc: string, ids: seq<string>)
    ensures match Entry(l, sc, ids)
            case Some(e) => e in l && Matches(e, sc, ids)
            case None => forall i | 0 <= i < |l| :: !Matches(l[i], sc, ids)
  {
    if l != [] && !Matches(l[0], sc, ids) {
      EntryExact(l[1..], sc, ids);
      if Entry(l, sc, ids).None? {
        forall i | 0 <= i < |l| ensures !Matches(l[i], sc, ids) {
          if i > 0 { assert l[i] == l[1..][i - 1]; }
        }
      }
    }
  }

  lemma {:induction false} ForClassKeeps(before: seq<PeerClass>, l: seq<PeerClass>, sc: string, policy: seq<PeerClass>, cg: bool)
    ensures Keeps(l, ForClass(before, l, sc, policy, cg), cg)
    ensures DistinctKeys(l) ==> DistinctKeys(ForClass(before, l, sc, policy, cg))
    decreases |policy|
  {
    if policy != [] {
      var from := policy[0];
      if from.storageClassName != sc {
        ForClassKeeps(before, l, sc, policy[1..], cg);
      } else if Has(before, sc, from.clusterIDs) {
        UpdateFirstKeeps(l, from, cg);
        if DistinctKeys(l) { KeptKeysStayDistinct(l, UpdateFirst(l, from, cg), cg); }
      } else if !Has(l, sc, from.clusterIDs) {
        EntryExact(l, sc, from.clusterIDs);
        ForClassKeeps(before, l + [from], sc, policy[1..], cg);
        assert Keeps(l, l + [from], cg);
        KeepsTrans(l, l + [from], ForClass(before, l + [from], sc, policy[1..], cg), cg);
      }
    }
  }

  lemma {:induction false} ForVolumesKeeps(before: seq<PeerClass>, l: seq<PeerClass>, volumes: seq<string>, policy: seq<PeerClass>, cg: bool)
    ensures Keeps(l, ForVolumes(before, l, volumes, policy, cg), cg)
    ensures DistinctKeys(l) ==> DistinctKeys(ForVolumes(before, l, volumes, policy, cg))
    decreases |volumes|
  {
    if volumes != [] {
      var n := if volumes[0] == "" then l else ForClass(before, l, volumes[0], policy, cg);
      ForClassKeeps(before, l, volumes[0], policy, cg);
      ForVolumesKeeps(before, n, volumes[1..], policy, cg);
      KeepsTrans(l, n, ForVolumes(before, n, volumes[1..], policy, cg), cg);
    }
  }

  /** No update ever changes a protection scheme: every entry keeps its place, key and scheme, and
      distinct keys stay distinct. */
  lemma SchemesNeverChange(l: seq<PeerClass>, volumes: seq<string>, policy: seq<PeerClass>, cg: bool)
    ensures Keeps(l, Updated(l, volumes, policy, cg), cg)
    ensures DistinctKeys(l) ==> DistinctKeys(Updated(l, volumes, policy, cg))
  {
    ForVolumesKeeps(l, l, volumes, policy, cg);
  }

  // ---------------------------------------------------------------------------
  // First entries
  // ---------------------------------------------------------------------------

  lemma {:induction false} EntryAppend(l: seq<PeerClass>, e: PeerClass, sc: string, ids: seq<string>)
    ensures Entry(l + [e], sc, ids) ==
            if Has(l, sc, ids) then Entry(l, sc, ids) else if Matches(e, sc, ids) then Some(e) else None
  {
    if l != [] {
      assert (l + [e])[1..] == l[1..] + [e];
      EntryAppend(l[1..], e, sc, ids);
    }
  }

  lemma {:induction false} EntryCong(l: seq<PeerClass>, from: PeerClass, sc: string, ids: seq<string>)
    requires Matches(from, sc, ids)
    ensures Entry(l, sc, ids) == Entry(l, from.storageClassName, from.clusterIDs)
  {
    if l != [] { EntryCong(l[1..], from, sc, ids); }
  }

  lemma {:induction false} EntryUpdate(l: seq<PeerClass>, from: PeerClass, cg: bool, sc: string, ids: seq<string>)
    ensures Entry(UpdateFirst(l, from, cg), sc, ids) ==
            if Matches(from, sc, ids) && Has(l, sc, ids) then Some(Merge(Entry(l, sc, ids).value, from, cg))
            else Entry(l, sc, ids)
  {
    if l != [] { EntryUpdate(l[1..], from, cg, sc, ids); }
  }

  lemma {:induction false} NothingToUpdate(l: seq<PeerClass>, from: PeerClass, cg: bool)
    requires var e := Entry(l, from.storageClassName, from.clusterIDs); e.Some? && Merge(e.value, from, cg) == e.value
    ensures UpdateFirst(l, from, cg) == l
  {
    if !SameKey(l[0], from) { NothingToUpdate(l[1..], from, cg); }
  }

  /** Merging twice is merging once, with or without consistency groups. */
  lemma MergeIsIdempotent(to: PeerClass, from: PeerClass, cg: bool)
    ensures Merge(Merge(to, from, cg), from, cg) == Merge(to, from, cg)
  {
  }

  lemma {:induction false} KeptKeysAreFound(l: seq<PeerClass>, n: seq<PeerClass>, sc: string, ids: seq<string>, cg: bool)
    requires Keeps(l, n, cg) && Has(l, sc, ids)
    ensures Has(n, sc, ids)
  {
    assert SchemeKept(l[0], n[0], cg);
    if !Matches(l[0], sc, ids) {
      forall i | 0 <= i < |l[1..]| ensures SchemeKept(l[1..][i], n[1..][i], cg) {
        assert SchemeKept(l[i + 1], n[i + 1], cg);
      }
      KeptKeysAreFound(l[1..], n[1..], sc, ids, cg);
    }
  }

  /** The list that is being updated shares its storage with the list it started from until it first
      grows; looking keys up in either gives the same answer. */
  lemma StaleListAgrees(before: seq<PeerClass>, n: seq<PeerClass>, sc: string, ids: seq<string>, cg: bool)
    requires Keeps(before, n, cg)
    ensures Has(n[..|before|], sc, ids) <==> Has(before, sc, ids)
  {
    var same := n[..|before|];
    assert Keeps(before, same, cg);
    if Has(before, sc, ids) { KeptKeysAreFound(before, same, sc, ids, cg); }
    EntryExact(before, sc, ids);
    EntryExact(same, sc, ids);
  }

  // ---------------------------------------------------------------------------
  // Coverage and fixed points
  // ---------------------------------------------------------------------------

  /** The entry the policy offers for a storage class. */
  function Offered(policy: seq<PeerClass>, sc: string): Option<PeerClass> {
    if policy == [] then None
    else if policy[0].storageClassName == sc then Some(policy[0]) else Offered(policy[1..], sc)
  }

  /** Whatever the policy offers for `sc` is in the list. */
  predicate Covers(l: seq<PeerClass>, sc: string, policy: seq<PeerClass>) {
    var o := Offered(policy, sc);
    o.Some? ==> Has(l, sc, o.value.clusterIDs)
  }

  /** ... and cannot be updated any further. */
  predicate UpToDate(l: seq<PeerClass>, sc: string, policy: seq<PeerClass>, cg: bool) {
    var o := Offered(policy, sc);
    o.Some? ==>
      var e := Entry(l, sc, o.value.clusterIDs);
      e.Some? && Merge(e.value, o.value, cg) == e.value
  }

  lemma {:induction false} OfferedIsForClass(policy: seq<PeerClass>, sc: string)
    ensures var o := Offered(policy, sc); o.Some? ==> o.value.storageClassName == sc && o.value in policy
  {
    if policy != [] { OfferedIsForClass(policy[1..], sc); }
  }

  lemma {:induction false} UpToDateIsFixed(before: seq<PeerClass>, l: seq<PeerClass>, sc: string, policy: seq<PeerClass>, cg: bool)
    requires UpToDate(l, sc, policy, cg)
    ensures ForClass(before, l, sc, policy, cg) == l
    decreases |policy|
  {
    if policy != [] {
      if policy[0].storageClassName != sc {
        UpToDateIsFixed(before, l, sc, policy[1..], cg);
      } else {
        NothingToUpdate(l, policy[0], cg);
      }
    }
  }

  /** Volumes of one storage class leave the entries of all others alone. */
  lemma {:induction false} OtherClassesStay(
    before: seq<PeerClass>, l: seq<PeerClass>, sc: string, policy: seq<PeerClass>, cg: bool, other: string, ids: seq<string>)
    requires other != sc
    ensures Entry(ForClass(before, l, sc, policy, cg), other, ids) == Entry(l, other, ids)
    decreases |policy|
  {
    if policy != [] {
      var from := policy[0];
      if from.storageClassName != sc {
        OtherClassesStay(before, l, sc, policy[1..], cg, other, ids);
      } else if Has(before, sc, from.clusterIDs) {
        EntryUpdate(l, from, cg, other, ids);
      } else if !Has(l, sc, from.clusterIDs) {
        EntryAppend(l, from, other, ids);
        OtherClassesStay(before, l + [from], sc, policy[1..], cg, other, ids);
      }
    }
  }

  /** An entry added for a volume is not touched again while that volume is looked up. */
  lemma {:induction false} AddedEntryStays(
    before: seq<PeerClass>, l: seq<PeerClass>, sc: string, policy: seq<PeerClass>, cg: bool, ids: seq<string>)
    requires Has(l, sc, ids) && !Has(before, sc, ids)
    ensures Entry(ForClass(before, l, sc, policy, cg), sc, ids) == Entry(l, sc, ids)
    decreases |policy|
  {
    if policy != [] {
      var from := policy[0];
      if from.storageClassName != sc {
        AddedEntryStays(before, l, sc, policy[1..], cg, ids);
      } else if Has(before, sc, from.clusterIDs) {
        if Matches(from, sc, ids) { EntryCong(before, from, sc, ids); }
        EntryUpdate(l, from, cg, sc, ids);
      } else if !Has(l, sc, from.clusterIDs) {
        EntryAppend(l, from, sc, ids);
        AddedEntryStays(before, l + [from], sc, policy[1..], cg, ids);
      }
    }
  }

  /** After a volume was looked up, its class is covered, and up to date too unless an entry was only
      just added and still has to have its grouping turned on. */
  lemma {:induction false} LookedUpIsUpToDate(
    before: seq<PeerClass>, l: seq<PeerClass>, sc: string, policy: seq<PeerClass>, cg: bool)
    requires Keeps(before, l, cg)
    ensures Covers(ForClass(before, l, sc, policy, cg), sc, policy)
    ensures Covers(before, sc, policy) || UpToDate(l, sc, policy, cg) || (!cg && !Covers(l, sc, policy)) ==>
              UpToDate(ForClass(before, l, sc, policy, cg), sc, policy, cg)
    decreases |policy|
  {
    if policy != [] {
      var from := policy[0];
      if from.storageClassName != sc {
        LookedUpIsUpToDate(before, l, sc, policy[1..], cg);
      } else if Has(before, sc, from.clusterIDs) {
        KeptKeysAreFound(before, l, sc, from.clusterIDs, cg);
        EntryUpdate(l, from, cg, sc, from.clusterIDs);
        MergeIsIdempotent(Entry(l, sc, from.clusterIDs).value, from, cg);
      } else if !Has(l, sc, from.clusterIDs) {
        EntryAppend(l, from, sc, from.clusterIDs);
        AddedEntryStays(before, l + [from], sc, policy[1..], cg, from.clusterIDs);
      }
    }
  }

  /** A class that was looked up: covered, and up to date unless its entry was only just added. */
  predicate Caught(before: seq<PeerClass>, l: seq<PeerClass>, sc: string, policy: seq<PeerClass>, cg: bool) {
    Covers(l, sc, policy) && (!cg || Covers(before, sc, policy) ==> UpToDate(l, sc, policy, cg))
  }

  /** A class that was not looked up yet. */
  ghost predicate Untouched(before: seq<PeerClass>, l: seq<PeerClass>, sc: string) {
    forall ids :: Entry(l, sc, ids) == Entry(before, sc, ids)
  }

  lemma {:induction false} VolumesCatch(
    before: seq<PeerClass>, l: seq<PeerClass>, volumes: seq<string>, policy: seq<PeerClass>, cg: bool, sc: string)
    requires sc != "" && Keeps(before, l, cg)
    requires Caught(before, l, sc, policy, cg) || (sc in volumes && Untouched(before, l, sc))
    ensures Caught(before, ForVolumes(before, l, volumes, policy, cg), sc, policy, cg)
    decreases |volumes|
  {
    if volumes != [] {
      var v := volumes[0];
      var n := if v == "" then l else ForClass(before, l, v, policy, cg);
      ForClassKeeps(before, l, v, policy, cg);
      KeepsTrans(before, l, n, cg);
      if v == sc {
        LookedUpIsUpToDate(before, l, sc, policy, cg);
      } else {
        forall ids ensures Entry(n, sc, ids) == Entry(l, sc, ids) {
          if v != "" { OtherClassesStay(before, l, v, policy, cg, sc, ids); }
        }
      }
      VolumesCatch(before, n, volumes[1..], policy, cg, sc);
    }
  }

  lemma {:induction false} UpToDateVolumesAreFixed(
    before: seq<PeerClass>, l: seq<PeerClass>, volumes: seq<string>, policy: seq<PeerClass>, cg: bool)
    requires forall sc | sc in volumes && sc != "" :: UpToDate(l, sc, policy, cg)
    ensures ForVolumes(before, l, volumes, policy, cg) == l
    decreases |volumes|
  {
    if volumes != [] {
      if volumes[0] != "" { UpToDateIsFixed(before, l, volumes[0], policy, cg); }
      UpToDateVolumesAreFixed(before, l, volumes[1..], policy, cg);
    }
  }

  /** Every storage class in use that the policy offers is covered. */
  lemma EveryVolumeIsCovered(l: seq<PeerClass>, volumes: seq<string>, policy: seq<PeerClass>, cg: bool, sc: string)
    requires sc in volumes && sc != ""
    ensures Covers(Updated(l, volumes, policy, cg), sc, policy)
  {
    VolumesCatch(l, l, volumes, policy, cg, sc);
  }

  /** Without consistency groups an update is idempotent. */
  lemma UpdateIsIdempotent(l: seq<PeerClass>, volumes: seq<string>, policy: seq<PeerClass>)
    ensures
      var once := Updated(l, volumes, policy, false);
      Updated(once, volumes, policy, false) == once
  {
    var once := Updated(l, volumes, policy, false);
    forall sc | sc in volumes && sc != "" ensures UpToDate(once, sc, policy, false) {
      VolumesCatch(l, l, volumes, policy, false, sc);
    }
    UpToDateVolumesAreFixed(once, once, volumes, policy, false);
  }

  /** With them, it is after the second application that nothing changes any more. */
  lemma UpdateSettlesAfterTwo(l: seq<PeerClass>, volumes: seq<string>, policy: seq<PeerClass>)
    ensures
      var twice := Updated(Updated(l, volumes, policy, true), volumes, policy, true);
      Updated(twice, volumes, policy, true) == twice
  {
    var once := Updated(l, volumes, policy, true);
    var twice := Updated(once, volumes, policy, true);
    forall sc | sc in volumes && sc != "" ensures UpToDate(twice, sc, policy, true) {
      EveryVolumeIsCovered(l, volumes, policy, true, sc);
      VolumesCatch(once, once, volumes, policy, true, sc);
    }
    UpToDateVolumesAreFixed(twice, twice, volumes, policy, true);
  }

  /** The second application is needed: an entry is added as the policy has it, and only then grouped. */
  lemma OneApplicationIsNotEnough(from: PeerClass)
    requires from.storageClassName != "" && !from.grouping
    ensures
      var volumes, policy := [from.storageClassName], [from];
      var once := Updated([], volumes, policy, true);
      once == [from] && Updated(once, volumes, policy, true) == [from.(grouping := true)]
  {
    var sc, policy, none: seq<PeerClass> := from.storageClassName, [from], [];
    assert [sc][1..] == [] && policy[1..] == [] && none + [from] == [from];
    assert ForClass(none, none, sc, policy, true) == ForClass(none, [from], sc, [], true) == [from];
    assert Updated(none, [sc], policy, true) == ForVolumes(none, [from], [sc][1..], policy, true) == [from];
    var grouped := UpdateFirst([from], from, true);
    assert grouped == [from.(grouping := true)];
    assert Updated([from], [sc], policy, true) == ForVolumes([from], grouped, [sc][1..], policy, true) == grouped;
  }

  // ---------------------------------------------------------------------------
  // Where entries come from
  // ---------------------------------------------------------------------------

  /** The entries beyond those of `before` are entries of the policy, unchanged. */
  ghost predicate AddedFromPolicy(before: seq<PeerClass>, l: seq<PeerClass>, policy: seq<PeerClass>) {
    forall i | |before| <= i < |l| :: l[i] in policy
  }

  lemma {:induction false} ForClassAdds(
    before: seq<PeerClass>, l: seq<PeerClass>, sc: string, policy: seq<PeerClass>, cg: bool, all: seq<PeerClass>)
    requires Keeps(before, l, cg) && AddedFromPolicy(before, l, all) && forall e | e in policy :: e in all
    ensures AddedFromPolicy(before, ForClass(before, l, sc, policy, cg), all)
    decreases |policy|
  {
    if policy != [] {
      var from := policy[0];
      if from.storageClassName != sc {
        ForClassAdds(before, l, sc, policy[1..], cg, all);
      } else if Has(before, sc, from.clusterIDs) {
        UpdateStaysInside(before, l, from, cg);
      } else if !Has(l, sc, from.clusterIDs) {
        ForClassAdds(before, l + [from], sc, policy[1..], cg, all);
      }
    }
  }

  lemma {:induction false} UpdateStaysInside(before: seq<PeerClass>, l: seq<PeerClass>, from: PeerClass, cg: bool)
    requires Keeps(before, l, cg) && Has(before, from.storageClassName, from.clusterIDs)
    ensures |UpdateFirst(l, from, cg)| == |l|
    ensures forall i | |before| <= i < |l| :: UpdateFirst(l, from, cg)[i] == l[i]
  {
    assert SchemeKept(before[0], l[0], cg);
    if !SameKey(l[0], from) {
      forall i | 0 <= i < |before[1..]| ensures SchemeKept(before[1..][i], l[1..][i], cg) {
        assert SchemeKept(before[i + 1], l[i + 1], cg);
      }
      UpdateStaysInside(before[1..], l[1..], from, cg);
    }
  }

  lemma {:induction false} ForVolumesAdds(
    before: seq<PeerClass>, l: seq<PeerClass>, volumes: seq<string>, policy: seq<PeerClass>, cg: bool)
    requires Keeps(before, l, cg) && AddedFromPolicy(before, l, policy)
    ensures AddedFromPolicy(before, ForVolumes(before, l, volumes, policy, cg), policy)
    decreases |volumes|
  {
    if volumes != [] {
      var n := if volumes[0] == "" then l else ForClass(before, l, volumes[0], policy, cg);
      ForClassKeeps(before, l, volumes[0], policy, cg);
      KeepsTrans(before, l, n, cg);
      ForClassAdds(before, l, volumes[0], policy, cg, policy);
      ForVolumesAdds(before, n, volumes[1..], policy, cg);
    }
  }

  /** An update invents nothing: every new entry is an entry of the policy as it stands there. */
  lemma NewEntriesAreThePolicys(l: seq<PeerClass>, volumes: seq<string>, policy: seq<PeerClass>, cg: bool)
    ensures AddedFromPolicy(l, Updated(l, volumes, policy, cg), policy)
  {
    ForVolumesAdds(l, l, volumes, policy, cg);
  }

  // ---------------------------------------------------------------------------
  // What an update brings
  // ---------------------------------------------------------------------------

  /** After the volumes, the entry of an offered key is what it was or, once its class was looked up,
      what the offer makes of it. */
  lemma {:induction false} VolumesMerge(
    before: seq<PeerClass>, l: seq<PeerClass>, volumes: seq<string>, policy: seq<PeerClass>, cg: bool, sc: string, o: PeerClass)
    requires sc != "" && Offered(policy, sc) == Some(o) && Has(before, sc, o.clusterIDs) && Keeps(before, l, cg)
    requires
      var e, n := Entry(before, sc, o.clusterIDs).value, Entry(l, sc, o.clusterIDs);
      n == Some(Merge(e, o, cg)) || (sc in volumes && n == Some(e))
    ensures
      var e := Entry(before, sc, o.clusterIDs).value;
      Entry(ForVolumes(before, l, volumes, policy, cg), sc, o.clusterIDs) == Some(Merge(e, o, cg))
    decreases |volumes|
  {
    if volumes != [] {
      var v := volumes[0];
      var n := if v == "" then l else ForClass(before, l, v, policy, cg);
      ForClassKeeps(before, l, v, policy, cg);
      KeepsTrans(before, l, n, cg);
      if v == sc {
        LookUpMerges(before, l, sc, policy, cg, o);
        MergeIsIdempotent(Entry(before, sc, o.clusterIDs).value, o, cg);
      } else if v != "" {
        OtherClassesStay(before, l, v, policy, cg, sc, o.clusterIDs);
      }
      VolumesMerge(before, n, volumes[1..], policy, cg, sc, o);
    }
  }

  lemma {:induction false} LookUpMerges(
    before: seq<PeerClass>, l: seq<PeerClass>, sc: string, policy: seq<PeerClass>, cg: bool, o: PeerClass)
    requires Offered(policy, sc) == Some(o) && Has(before, sc, o.clusterIDs) && Has(l, sc, o.clusterIDs)
    ensures Entry(ForClass(before, l, sc, policy, cg), sc, o.clusterIDs) ==
            Some(Merge(Entry(l, sc, o.clusterIDs).value, o, cg))
    decreases |policy|
  {
    if policy[0].storageClassName != sc {
      LookUpMerges(before, l, sc, policy[1..], cg, o);
    } else {
      EntryUpdate(l, o, cg, sc, o.clusterIDs);
    }
  }

  /** What an update is for: the entry of a storage class in use picks up every identifier the policy
      offers for it if the scheme is the same, with grouping turned on on request, and is left as it is
      if the scheme differs. */
  lemma OfferIsPickedUp(l: seq<PeerClass>, volumes: seq<string>, policy: seq<PeerClass>, cg: bool, sc: string)
    requires sc in volumes && sc != "" && Offered(policy, sc).Some? && Has(l, sc, Offered(policy, sc).value.clusterIDs)
    ensures
      var o := Offered(policy, sc).value;
      var e, n := Entry(l, sc, o.clusterIDs).value, Entry(Updated(l, volumes, policy, cg), sc, o.clusterIDs);
      var sameScheme := e.offloaded == o.offloaded && e.global == o.global && e.grouping == o.grouping
                        && (e.replicationID == "" <==> o.replicationID == "");
      && n.Some? && (!sameScheme ==> n.value == e)
      && (sameScheme ==>
            && n.value.replicationID == o.replicationID && n.value.groupReplicationID == o.groupReplicationID
            && n.value.storageID == o.storageID && n.value.storageClassName == sc && n.value.clusterIDs == o.clusterIDs
            && n.value.offloaded == o.offloaded && n.value.global == o.global && n.value.grouping == (o.grouping || cg))
  {
    OfferedIsForClass(policy, sc);
    VolumesMerge(l, l, volumes, policy, cg, sc, Offered(policy, sc).value);
  }

  lemma {:induction false} UpdateTouchesOneClass(l: seq<PeerClass>, from: PeerClass, cg: bool)
    ensures |UpdateFirst(l, from, cg)| == |l|
    ensures forall i | 0 <= i < |l| && l[i].storageClassName != from.storageClassName :: UpdateFirst(l, from, cg)[i] == l[i]
  {
    if l != [] && !SameKey(l[0], from) { UpdateTouchesOneClass(l[1..], from, cg); }
  }

  /** `n` has the entries of `l` that are not of class `sc`, at their places. */
  ghost predicate OthersSame(l: seq<PeerClass>, n: seq<PeerClass>, classes: seq<string>) {
    |l| <= |n| && forall i | 0 <= i < |l| && l[i].storageClassName !in classes :: n[i] == l[i]
  }

  lemma {:induction false} ForClassTouchesOneClass(
    before: seq<PeerClass>, l: seq<PeerClass>, sc: string, policy: seq<PeerClass>, cg: bool)
    ensures OthersSame(l, ForClass(before, l, sc, policy, cg), [sc])
    decreases |policy|
  {
    if policy != [] {
      var from := policy[0];
      if from.storageClassName != sc {
        ForClassTouchesOneClass(before, l, sc, policy[1..], cg);
      } else if Has(before, sc, from.clusterIDs) {
        UpdateTouchesOneClass(l, from, cg);
      } else if !Has(l, sc, from.clusterIDs) {
        ForClassTouchesOneClass(before, l + [from], sc, policy[1..], cg);
        var n := ForClass(before, l + [from], sc, policy[1..], cg);
        assert forall i | 0 <= i < |l| :: (l + [from])[i] == l[i];
      }
    }
  }

  lemma {:induction false} ForVolumesTouchesTheirClasses(
    before: seq<PeerClass>, l: seq<PeerClass>, volumes: seq<string>, policy: seq<PeerClass>, cg: bool)
    ensures OthersSame(l, ForVolumes(before, l, volumes, policy, cg), volumes)
    decreases |volumes|
  {
    if volumes != [] {
      var n := if volumes[0] == "" then l else ForClass(before, l, volumes[0], policy, cg);
      ForClassTouchesOneClass(before, l, volumes[0], policy, cg);
      ForVolumesTouchesTheirClasses(before, n, volumes[1..], policy, cg);
      var out := ForVolumes(before, n, volumes[1..], policy, cg);
      forall i | 0 <= i < |l| && l[i].storageClassName !in volumes ensures out[i] == l[i] {
        assert n[i] == l[i];
      }
    }
  }

  /** Entries of storage classes that no volume uses are left alone. */
  lemma UnusedClassesStay(l: seq<PeerClass>, volumes: seq<string>, policy: seq<PeerClass>, cg: bool)
    ensures OthersSame(l, Updated(l, volumes, policy, cg), volumes)
  {
    ForVolumesTouchesTheirClasses(l, l, volumes, policy, cg);
  }

  /** Everything the policy offers for a class none of whose offers is known yet is added: the look-up
      does not end with the first one. */
  lemma {:induction false} EveryOfferIsAdded(
    before: seq<PeerClass>, l: seq<PeerClass>, sc: string, policy: seq<PeerClass>, cg: bool, i: nat)
    requires DistinctKeys(policy) && i < |policy| && policy[i].storageClassName == sc && Keeps(before, l, cg)
    requires forall j | 0 <= j < |policy| && policy[j].storageClassName == sc :: !Has(l, sc, policy[j].clusterIDs)
    ensures Has(ForClass(before, l, sc, policy, cg), sc, policy[i].clusterIDs)
    decreases |policy|
  {
    var from, rest := policy[0], policy[1..];
    assert forall j | 0 <= j < |rest| :: rest[j] == policy[j + 1];
    if from.storageClassName != sc {
      EveryOfferIsAdded(before, l, sc, rest, cg, i - 1);
    } else {
      if Has(before, sc, from.clusterIDs) { KeptKeysAreFound(before, l, sc, from.clusterIDs, cg); }
      var n := l + [from];
      assert Keeps(before, n, cg);
      if i == 0 {
        EntryAppend(l, from, sc, from.clusterIDs);
        ForClassKeeps(before, n, sc, rest, cg);
        KeptKeysAreFound(n, ForClass(before, n, sc, rest, cg), sc, from.clusterIDs, cg);
      } else {
        forall j | 0 <= j < |rest| && rest[j].storageClassName == sc ensures !Has(n, sc, rest[j].clusterIDs) {
          EntryAppend(l, from, sc, rest[j].clusterIDs);
          assert !SameKey(policy[0], policy[j + 1]);
        }
        EveryOfferIsAdded(before, n, sc, rest, cg, i - 1);
      }
    }
  }
}
