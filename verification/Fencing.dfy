/** Fencing of a DRCluster: the hub asks the peer cluster, through one NetworkFence ManifestWork per
    NetworkFenceClass, to cut the cluster off from storage, and reports in two conditions whether the
    cluster is fenced and whether it is clean of fencing resources. */
module Fencing {
  import opened Options

  /** What the user asks for in the spec. */
  datatype FenceState = Default | Unfenced | Fenced | ManuallyUnfenced | ManuallyFenced

  datatype FencePhase = Starting | Available | InFencing | IsFenced | InUnfencing | IsUnfenced

  datatype Truth = Yes | No | Unknown

  datatype Condition = Condition(status: Truth, observed: nat)

  /** A NetworkFence as read back from the peer. */
  datatype NF = Missing | Unreadable | NF(state: FenceState, succeeded: bool)

  /** What a reconcile finds: the NetworkFenceClasses of the peer and of the cluster itself (nothing if
      they cannot be determined), the NetworkFences, whether some NetworkFence ManifestWork exists on the
      peer, and which manifest writes succeed. */
  datatype World = World(classes: Option<seq<string>>, ownClasses: Option<seq<string>>,
                         nf: string -> NF, anyWork: Option<bool>,
                         creates: string -> bool, deletes: string -> bool)

  /** The status of the DRCluster, and the classes that have a ManifestWork on the peer. */
  datatype Status = Status(phase: FencePhase, fenced: Condition, clean: Condition, works: set<string>)

  predicate Under(p: FencePhase) { p == InFencing || p == IsFenced }

  predicate UnderUnfencing(p: FencePhase) { p == InUnfencing || p == IsUnfenced }

  function Advanced(p: FencePhase): FencePhase {
    match p case InFencing => IsFenced case InUnfencing => IsUnfenced case _ => p
  }

  function Marked(st: Status, generation: nat, fenced: Truth, clean: Truth): Status {
    st.(fenced := Condition(fenced, generation), clean := Condition(clean, generation))
  }

  // ---------------------------------------------------------------------------
  // What a reconcile leaves behind
  // ---------------------------------------------------------------------------

  datatype Check = Good | Waiting | Bad

  /** The first class that is not where it should be decides. */
  function Checked(w: World, wanted: FenceState, classes: seq<string>): Check {
    if classes == [] then Good
    else match w.nf(classes[0])
      case Unreadable => Waiting
      case Missing => if wanted == Unfenced && w.anyWork == Some(false) then Checked(w, wanted, classes[1..]) else Waiting
      case NF(state, succeeded) =>
        if state != wanted then Waiting else if !succeeded then Bad else Checked(w, wanted, classes[1..])
  }

  /** The ManifestWorks after creating those of `classes` up to the first failure. */
  function Created(w: World, works: set<string>, classes: seq<string>): set<string>
    decreases |classes|
  {
    if classes == [] || !w.creates(classes[0]) then works else Created(w, works + {classes[0]}, classes[1..])
  }

  function Deleted(w: World, works: set<string>, classes: seq<string>): set<string>
    decreases |classes|
  {
    if classes == [] || !w.deletes(classes[0]) then works else Deleted(w, works - {classes[0]}, classes[1..])
  }

  predicate AllSucceed(f: string -> bool, classes: seq<string>) { forall i | 0 <= i < |classes| :: f(classes[i]) }

  function AfterFence(w: World, generation: nat, st: Status): Status {
    if w.classes.None? then st
    else if !Under(st.phase) then
      var n := Marked(st.(works := Created(w, st.works, w.classes.value)), generation, No, Yes);
      if AllSucceed(w.creates, w.classes.value) then n.(phase := InFencing) else n
    else match Checked(w, Fenced, w.classes.value)
      case Waiting => st
      case Bad => Marked(st, generation, No, Yes)
      case Good => Marked(st.(phase := Advanced(st.phase)), generation, Yes, No)
  }

  function AfterClean(w: World, generation: nat, st: Status): Status
    requires w.classes.Some?
  {
    Marked(st.(works := Deleted(w, st.works, w.classes.value)), generation, No, if Cleaned(w) then Yes else No)
  }

  /** The manifests of both clusters can be removed. */
  predicate Cleaned(w: World)
    requires w.classes.Some?
  {
    w.ownClasses.Some? && AllSucceed(w.deletes, w.ownClasses.value) && AllSucceed(w.deletes, w.classes.value)
  }

  /** Fencing is looked at again until every NetworkFence is seen fenced and successful. */
  predicate RequeueFence(w: World, st: Status) {
    !(w.classes.Some? && Under(st.phase) && Checked(w, Fenced, w.classes.value) == Good)
  }

  /** Unfencing is looked at again until every NetworkFence is unfenced and the manifests are removed. */
  predicate RequeueUnfence(w: World, st: Status) {
    !(w.classes.Some? && UnderUnfencing(st.phase) && Checked(w, Unfenced, w.classes.value) == Good && Cleaned(w))
  }

  /** What the user does by hand is not looked at again. */
  predicate RequeueAfter(w: World, fence: FenceState, st: Status) {
    match fence case Fenced => RequeueFence(w, st) case Unfenced => RequeueUnfence(w, st) case _ => false
  }

  function AfterUnfence(w: World, generation: nat, st: Status): Status {
    if w.classes.None? then st
    else if !UnderUnfencing(st.phase) then
      var n := Marked(st.(works := Created(w, st.works, w.classes.value)), generation, Yes, No);
      if AllSucceed(w.creates, w.classes.value) then n.(phase := InUnfencing) else n
    else match Checked(w, Unfenced, w.classes.value)
      case Waiting => st
      case Bad => Marked(st, generation, Yes, No)
      case Good => AfterClean(w, generation, st.(phase := Advanced(st.phase)))
  }

  function AfterReconcile(w: World, fence: FenceState, generation: nat, st: Status): Status {
    match fence
    case Unfenced => AfterUnfence(w, generation, st)
    case ManuallyFenced => Marked(st.(phase := IsFenced), generation, Yes, No)
    case ManuallyUnfenced => Marked(st.(phase := IsUnfenced), generation, No, Yes)
    case Fenced => AfterFence(w, generation, st)
    case Default => Marked(st.(phase := Available), generation, No, Yes)
  }

  // ---------------------------------------------------------------------------
  // The reconcile
  // ---------------------------------------------------------------------------

  class DRClusterInstance {
    const fence: FenceState
    const generation: nat
    var phase: FencePhase
    var fenced: Condition
    var clean: Condition
    var works: set<string>

    function Now(): Status reads this { Status(phase, fenced, clean, works) }

    constructor (fence: FenceState, generation: nat, st: Status)
      ensures Now() == st && this.fence == fence && this.generation == generation
    {
      this.fence, this.generation := fence, generation;
      phase, fenced, clean, works := st.phase, st.fenced, st.clean, st.works;
    }

    method SetConditions(isFenced: Truth, isClean: Truth)
      modifies this
      ensures Now() == Marked(old(Now()), generation, isFenced, isClean)
    {
      fenced := Condition(isFenced, generation);
      clean := Condition(isClean, generation);
    }

    method AdvanceToNextPhase()
      modifies this
      ensures Now() == old(Now()).(phase := Advanced(old(phase)))
    {
      match phase {
        case InFencing => phase := IsFenced;
        case InUnfencing => phase := IsUnfenced;
        case _ =>
      }
    }

    /** Creates the manifests one by one and stops at the first failure. */
    method CreateManifests(w: World, classes: seq<string>) returns (ok: bool)
      modifies this
      ensures Now() == old(Now()).(works := Created(w, old(works), classes))
      ensures ok == AllSucceed(w.creates, classes)
    {
      for i := 0 to |classes|
        invariant phase == old(phase) && fenced == old(fenced) && clean == old(clean)
        invariant Created(w, old(works), classes) == Created(w, works, classes[i..])
        invariant forall j | 0 <= j < i :: w.creates(classes[j])
      {
        assert classes[i..][1..] == classes[i + 1..];
        if !w.creates(classes[i]) { return false; }
        works := works + {classes[i]};
      }
      ok := true;
    }

    method CheckStatus(w: World, nfClass: string, wanted: FenceState) returns (c: Check)
      requires wanted == Fenced || wanted == Unfenced
      modifies this
      ensures c == Checked(w, wanted, [nfClass])
      ensures Now() == if c != Bad then old(Now())
                       else if wanted == Fenced then Marked(old(Now()), generation, No, Yes)
                       else Marked(old(Now()), generation, Yes, No)
    {
      match w.nf(nfClass) {
        case Unreadable => return Waiting;
        case Missing =>
          if wanted == Unfenced && w.anyWork == Some(false) { return Good; }
          return Waiting;
        case NF(state, succeeded) =>
          if state != wanted { return Waiting; }
          if !succeeded {
            if wanted == Fenced { SetConditions(No, Yes); } else { SetConditions(Yes, No); }
            return Bad;
          }
          return Good;
      }
    }

    method CheckAll(w: World, classes: seq<string>, wanted: FenceState) returns (c: Check)
      requires wanted == Fenced || wanted == Unfenced
      modifies this
      ensures c == Checked(w, wanted, classes)
      ensures Now() == if c != Bad then old(Now())
                       else if wanted == Fenced then Marked(old(Now()), generation, No, Yes)
                       else Marked(old(Now()), generation, Yes, No)
    {
      for i := 0 to |classes|
        invariant Now() == old(Now())
        invariant Checked(w, wanted, classes) == Checked(w, wanted, classes[i..])
      {
        assert classes[i..][1..] == classes[i + 1..];
        var one := CheckStatus(w, classes[i], wanted);
        if one != Good { return one; }
      }
      c := Good;
    }

    /** `requeue`: the cluster has to be looked at again. */
    method ClusterFence(w: World) returns (requeue: bool)
      requires fence == Fenced
      modifies this
      ensures Now() == AfterFence(w, generation, old(Now()))
      ensures requeue == RequeueFence(w, old(Now()))
      ensures !requeue ==> fenced == Condition(Yes, generation)
    {
      if w.classes.None? { return true; }
      if !Under(phase) {
        var ok := CreateManifests(w, w.classes.value);
        SetConditions(No, Yes);
        if ok { phase := InFencing; }
        return true;
      }
      var c := CheckAll(w, w.classes.value, Fenced);
      if c != Good { return true; }
      SetConditions(Yes, No);
      AdvanceToNextPhase();
      return false;
    }

    /** Deletes the manifests of one cluster; only those on the peer are NetworkFences of this cluster. */
    method RemoveFencingCR(w: World, classes: Option<seq<string>>, onPeer: bool) returns (ok: bool)
      modifies this
      ensures Now() == old(Now()).(works := if onPeer && classes.Some? then Deleted(w, old(works), classes.value) else old(works))
      ensures ok == (classes.Some? && AllSucceed(w.deletes, classes.value))
    {
      if classes.None? { return false; }
      var l := classes.value;
      for i := 0 to |l|
        invariant phase == old(phase) && fenced == old(fenced) && clean == old(clean)
        invariant onPeer ==> Deleted(w, old(works), l) == Deleted(w, works, l[i..])
        invariant !onPeer ==> works == old(works)
        invariant forall j | 0 <= j < i :: w.deletes(l[j])
      {
        assert l[i..][1..] == l[i + 1..];
        if !w.deletes(l[i]) { return false; }
        if onPeer { works := works - {l[i]}; }
      }
      ok := true;
    }

    method CleanClusters(w: World) returns (requeue: bool)
      requires w.classes.Some?
      modifies this
      ensures Now() == AfterClean(w, generation, old(Now()))
      ensures requeue == !Cleaned(w)
    {
      var cleanedCount := 0;
      var ok := RemoveFencingCR(w, w.ownClasses, false);
      if ok { cleanedCount := cleanedCount + 1; }
      ok := RemoveFencingCR(w, w.classes, true);
      if ok { cleanedCount := cleanedCount + 1; }
      if cleanedCount == 2 { SetConditions(No, Yes); } else { SetConditions(No, No); }
      requeue := cleanedCount != 2;
    }

    method ClusterUnfence(w: World) returns (requeue: bool)
      requires fence == Unfenced
      modifies this
      ensures Now() == AfterUnfence(w, generation, old(Now()))
      ensures requeue == RequeueUnfence(w, old(Now()))
    {
      if w.classes.None? { return true; }
      if !UnderUnfencing(phase) {
        var ok := CreateManifests(w, w.classes.value);
        SetConditions(Yes, No);
        if ok { phase := InUnfencing; }
        return true;
      }
      var c := CheckAll(w, w.classes.value, Unfenced);
      if c != Good { return true; }
      SetConditions(No, No);
      AdvanceToNextPhase();
      requeue := CleanClusters(w);
    }

    method ClusterFenceHandle(w: World) returns (requeue: bool)
      modifies this
      ensures Now() == AfterReconcile(w, fence, generation, old(Now()))
      ensures requeue == RequeueAfter(w, fence, old(Now()))
    {
      match fence {
        case Unfenced => requeue := ClusterUnfence(w);
        case ManuallyFenced =>
          SetConditions(Yes, No);
          phase := IsFenced;
          return false;
        case ManuallyUnfenced =>
          SetConditions(No, Yes);
          phase := IsUnfenced;
          return false;
        case Fenced => requeue := ClusterFence(w);
        case Default =>
          SetConditions(No, Yes);
          phase := Available;
          return false;
      }
    }
  }

  // ---------------------------------------------------------------------------
  // Runs of user edits and reconciles
  // ---------------------------------------------------------------------------

  datatype DRCluster = DRCluster(fence: FenceState, generation: nat, st: Status)

  /** The user edits the spec, or a reconcile runs and its status is saved or lost; manifests stay. */
  datatype Event = Edit(fence: FenceState) | Reconcile(w: World, saved: bool)

  function Next(d: DRCluster, e: Event): DRCluster {
    match e
    case Edit(fence) => DRCluster(fence, d.generation + 1, d.st)
    case Reconcile(w, saved) =>
      var n := AfterReconcile(w, d.fence, d.generation, d.st);
      d.(st := if saved then n else d.st.(works := n.works))
  }

  datatype Run = Run(states: seq<DRCluster>, events: seq<Event>)

  /** A run of a new DRCluster. */
  ghost predicate IsRun(r: Run) {
    && |r.states| == |r.events| + 1
    && r.states[0].st == Status(Starting, Condition(Unknown, r.states[0].generation), Condition(Unknown, r.states[0].generation), {})
    && forall i | 0 <= i < |r.events| :: r.states[i + 1] == Next(r.states[i], r.events[i])
  }

  /** Every NetworkFence of the peer is in state Fenced, and its operation succeeded. */
  ghost predicate SawFenced(w: World) {
    w.classes.Some? && forall i | 0 <= i < |w.classes.value| :: w.nf(w.classes.value[i]) == NF(Fenced, true)
  }

  lemma {:induction false} CheckedGood(w: World, classes: seq<string>)
    ensures Checked(w, Fenced, classes) == Good <==>
            forall i | 0 <= i < |classes| :: w.nf(classes[i]) == NF(Fenced, true)
  {
    if classes != [] {
      CheckedGood(w, classes[1..]);
      if w.nf(classes[0]) == NF(Fenced, true) {
        assert forall i | 0 < i < |classes| :: classes[i] == classes[1..][i - 1];
        assert forall i | 0 <= i < |classes[1..]| :: classes[1..][i] == classes[i + 1];
      }
    }
  }

  /** The condition Fenced holds, for the spec as it is now. */
  predicate ReportsFenced(d: DRCluster) { d.st.fenced == Condition(Yes, d.generation) }

  predicate Sane(d: DRCluster) {
    && d.st.fenced.observed <= d.generation && d.st.clean.observed <= d.generation
    && !(d.st.fenced.status == Yes && d.st.clean.status == Yes)
  }

  lemma StepKeepsSane(d: DRCluster, e: Event)
    requires Sane(d)
    ensures Sane(Next(d, e))
  {
  }

  lemma {:induction false} SaneAlways(r: Run, k: nat)
    requires IsRun(r) && k < |r.states|
    ensures Sane(r.states[k])
  {
    if k > 0 {
      SaneAlways(r, k - 1);
      StepKeepsSane(r.states[k - 1], r.events[k - 1]);
    }
  }

  /** Fenced and Clean are never both True, in any run. */
  lemma NeverFencedAndClean(r: Run, k: nat)
    requires IsRun(r) && k < |r.states|
    ensures !(r.states[k].st.fenced.status == Yes && r.states[k].st.clean.status == Yes)
  {
    SaneAlways(r, k);
  }

  /** Step `i` is a saved reconcile, at this generation, that saw the cluster fenced. */
  ghost predicate FencedAt(r: Run, i: nat, generation: nat) {
    && i < |r.events| && i < |r.states|
    && r.states[i].fence == Fenced && r.states[i].generation == generation
    && r.events[i].Reconcile? && r.events[i].saved && SawFenced(r.events[i].w)
  }

  /** Fencing is never reported without having been seen: if the spec asks for Fenced and the condition
      Fenced is True for the current generation, then a reconcile of this very generation saw every
      NetworkFence of the peer fenced and successful. */
  lemma {:induction false} FencedMeansSeen(r: Run, k: nat)
    requires IsRun(r) && k < |r.states| && r.states[k].fence == Fenced && ReportsFenced(r.states[k])
    ensures exists i :: 0 <= i < k && FencedAt(r, i, r.states[k].generation)
  {
    var s, e := r.states[k - 1], r.events[k - 1];
    assert r.states[k] == Next(s, e);
    SaneAlways(r, k - 1);
    if e.Reconcile? && ReportsFenced(s) {
      FencedMeansSeen(r, k - 1);
    } else if e.Reconcile? {
      CheckedGood(e.w, e.w.classes.value);
      assert FencedAt(r, k - 1, s.generation);
    }
  }

  /** The other half: a saved reconcile with fencing under way that sees every NetworkFence fenced and
      successful reports it. */
  lemma SeenMeansFenced(d: DRCluster, w: World)
    requires d.fence == Fenced && d.st.phase in {InFencing, IsFenced} && SawFenced(w)
    ensures var n := Next(d, Reconcile(w, true)); ReportsFenced(n) && n.st.phase == IsFenced && n.st.works == d.st.works
  {
    CheckedGood(w, w.classes.value);
  }

  /** The NetworkFence of the class is where it should be. */
  predicate Fine(w: World, wanted: FenceState, c: string) {
    w.nf(c) == NF(wanted, true) || (wanted == Unfenced && w.nf(c) == Missing && w.anyWork == Some(false))
  }

  /** NetworkFence `i` changed its state but its operation did not succeed, and none before it still has
      to change. */
  predicate FailureAt(w: World, wanted: FenceState, classes: seq<string>, i: nat) {
    i < |classes| && w.nf(classes[i]) == NF(wanted, false) && forall j | 0 <= j < i :: Fine(w, wanted, classes[j])
  }

  ghost predicate SawFailure(w: World, wanted: FenceState, classes: seq<string>) {
    exists i: nat :: FailureAt(w, wanted, classes, i)
  }

  lemma FailureShifts(w: World, wanted: FenceState, classes: seq<string>, i: nat)
    requires classes != [] && Fine(w, wanted, classes[0])
    ensures FailureAt(w, wanted, classes[1..], i) <==> FailureAt(w, wanted, classes, i + 1)
  {
    var rest := classes[1..];
    if i < |rest| {
      assert classes[i + 1] == rest[i];
      assert forall j | 0 <= j < i :: rest[j] == classes[j + 1];
      assert forall j | 0 < j < i + 1 :: classes[j] == rest[j - 1];
    }
  }

  lemma {:induction false} CheckedBad(w: World, wanted: FenceState, classes: seq<string>)
    ensures Checked(w, wanted, classes) == Bad <==> SawFailure(w, wanted, classes)
  {
    if classes != [] {
      CheckedBad(w, wanted, classes[1..]);
      if w.nf(classes[0]) == NF(wanted, false) {
        assert FailureAt(w, wanted, classes, 0);
      } else if Fine(w, wanted, classes[0]) {
        if i: nat :| FailureAt(w, wanted, classes[1..], i) { FailureShifts(w, wanted, classes, i); }
        if i: nat :| FailureAt(w, wanted, classes, i) { FailureShifts(w, wanted, classes, i - 1); }
      }
    }
  }

  /** Fencing or unfencing is under way, as the spec asks. */
  predicate UnderWay(d: DRCluster) {
    (d.fence == Fenced && d.st.phase in {InFencing, IsFenced}) || (d.fence == Unfenced && d.st.phase in {InUnfencing, IsUnfenced})
  }

  /** A failed operation is reported: a failed fence as not fenced, a failed unfence as still fenced. */
  lemma FailureIsReported(d: DRCluster, w: World)
    requires UnderWay(d) && w.classes.Some? && SawFailure(w, d.fence, w.classes.value)
    ensures
      var n := Next(d, Reconcile(w, true));
      && n.st.fenced == Condition(if d.fence == Fenced then No else Yes, d.generation)
      && n.st.phase == d.st.phase && n.st.works == d.st.works
  {
    CheckedBad(w, d.fence, w.classes.value);
  }

  /** As long as no operation failed and not every NetworkFence is where it should be, nothing changes. */
  lemma WaitingChangesNothing(d: DRCluster, w: World, saved: bool)
    requires UnderWay(d)
    requires w.classes.Some? ==>
               && !SawFailure(w, d.fence, w.classes.value)
               && exists i :: 0 <= i < |w.classes.value| && !Fine(w, d.fence, w.classes.value[i])
    ensures Next(d, Reconcile(w, saved)) == d
  {
    if w.classes.Some? {
      CheckedBad(w, d.fence, w.classes.value);
      if d.fence == Fenced { CheckedGood(w, w.classes.value); } else { CheckedUnfenced(w, w.classes.value); }
    }
  }

  /** Fencing starts with a manifest for every class; until they are seen fenced the cluster counts as
      clean and not fenced. */
  lemma FencingStarts(d: DRCluster, w: World)
    requires d.fence == Fenced && d.st.phase !in {InFencing, IsFenced} && w.classes.Some?
    ensures
      var n := Next(d, Reconcile(w, true));
      && n.st.fenced == Condition(No, d.generation) && n.st.clean == Condition(Yes, d.generation)
      && (AllSucceed(w.creates, w.classes.value) ==>
            n.st.phase == InFencing && forall i | 0 <= i < |w.classes.value| :: w.classes.value[i] in n.st.works)
      && (!AllSucceed(w.creates, w.classes.value) ==> n.st.phase == d.st.phase)
  {
    CreatedOnlyGrows(w, d.st.works, w.classes.value);
  }

  // ---------------------------------------------------------------------------
  // Unfencing
  // ---------------------------------------------------------------------------

  /** Every NetworkFence of the peer is unfenced and successful, or gone with no manifest left. */
  ghost predicate SawUnfenced(w: World) {
    w.classes.Some? && forall i | 0 <= i < |w.classes.value| ::
      var nf := w.nf(w.classes.value[i]);
      nf == NF(Unfenced, true) || (nf == Missing && w.anyWork == Some(false))
  }

  lemma {:induction false} CheckedUnfenced(w: World, classes: seq<string>)
    ensures Checked(w, Unfenced, classes) == Good <==>
            forall i | 0 <= i < |classes| ::
              w.nf(classes[i]) == NF(Unfenced, true) || (w.nf(classes[i]) == Missing && w.anyWork == Some(false))
  {
    if classes != [] {
      CheckedUnfenced(w, classes[1..]);
      assert forall i | 0 < i < |classes| :: classes[i] == classes[1..][i - 1];
      assert forall i | 0 <= i < |classes[1..]| :: classes[1..][i] == classes[i + 1];
    }
  }

  lemma {:induction false} DeletedExact(w: World, works: set<string>, classes: seq<string>)
    ensures Deleted(w, works, classes) <= works
    ensures forall c | c in works && c !in classes :: c in Deleted(w, works, classes)
    ensures AllSucceed(w.deletes, classes) ==> forall i | 0 <= i < |classes| :: classes[i] !in Deleted(w, works, classes)
    decreases |classes|
  {
    if classes != [] && w.deletes(classes[0]) {
      DeletedExact(w, works - {classes[0]}, classes[1..]);
      if AllSucceed(w.deletes, classes) {
        assert forall i | 0 <= i < |classes[1..]| :: classes[1..][i] == classes[i + 1];
        assert forall i | 0 < i < |classes| :: classes[i] == classes[1..][i - 1];
      }
    }
  }

  /** A manifest goes only with a spec that asks for Unfenced, and only after every NetworkFence of the
      peer was seen unfenced. */
  lemma ManifestsGoWhenUnfenced(d: DRCluster, w: World, saved: bool, c: string)
    requires c in d.st.works && c !in Next(d, Reconcile(w, saved)).st.works
    ensures d.fence == Unfenced && d.st.phase in {InUnfencing, IsUnfenced} && SawUnfenced(w) && c in w.classes.value
  {
    if w.classes.Some? {
      CreatedOnlyGrows(w, d.st.works, w.classes.value);
      CheckedUnfenced(w, w.classes.value);
      DeletedExact(w, d.st.works, w.classes.value);
    }
  }

  /** A saved reconcile with unfencing under way that sees every NetworkFence unfenced, and can remove the
      manifests of both clusters, leaves the cluster clean; if it cannot, not clean and not fenced. */
  lemma SeenMeansUnfenced(d: DRCluster, w: World)
    requires d.fence == Unfenced && d.st.phase in {InUnfencing, IsUnfenced} && SawUnfenced(w)
    ensures
      var n := Next(d, Reconcile(w, true));
      && n.st.phase == IsUnfenced && n.st.fenced == Condition(No, d.generation)
      && n.st.clean == Condition(if Cleaned(w) then Yes else No, d.generation)
      && (Cleaned(w) ==> forall i | 0 <= i < |w.classes.value| :: w.classes.value[i] !in n.st.works)
  {
    CheckedUnfenced(w, w.classes.value);
    DeletedExact(w, d.st.works, w.classes.value);
  }

  /** Step `i` is a saved reconcile, at this generation, that saw the cluster unfenced and cleaned up. */
  ghost predicate CleanedAt(r: Run, i: nat, generation: nat) {
    && i < |r.events| && i < |r.states|
    && r.states[i].fence == Unfenced && r.states[i].generation == generation
    && r.events[i].Reconcile? && r.events[i].saved && SawUnfenced(r.events[i].w)
    && var w := r.events[i].w;
       && (forall j | 0 <= j < |w.classes.value| :: w.deletes(w.classes.value[j]))
       && w.ownClasses.Some? && forall j | 0 <= j < |w.ownClasses.value| :: w.deletes(w.ownClasses.value[j])
  }

  /** Clean is never reported while a NetworkFence may be in place: if the spec asks for Unfenced and the
      condition Clean is True for the current generation, then a reconcile of this very generation saw
      every NetworkFence of the peer unfenced, and removed the manifests of both clusters. */
  lemma {:induction false} CleanMeansSeen(r: Run, k: nat)
    requires IsRun(r) && k < |r.states| && r.states[k].fence == Unfenced
    requires r.states[k].st.clean == Condition(Yes, r.states[k].generation)
    ensures exists i :: 0 <= i < k && CleanedAt(r, i, r.states[k].generation)
  {
    var s, e := r.states[k - 1], r.events[k - 1];
    assert r.states[k] == Next(s, e);
    SaneAlways(r, k - 1);
    if e.Reconcile? && s.st.clean == Condition(Yes, s.generation) {
      CleanMeansSeen(r, k - 1);
    } else if e.Reconcile? {
      CheckedUnfenced(e.w, e.w.classes.value);
      assert CleanedAt(r, k - 1, s.generation);
    }
  }

  /** Unfencing starts as fencing does: the manifests are rewritten, and until they are seen unfenced the
      cluster counts as fenced and not clean. */
  lemma UnfencingStarts(d: DRCluster, w: World)
    requires d.fence == Unfenced && d.st.phase !in {InUnfencing, IsUnfenced} && w.classes.Some?
    ensures
      var n := Next(d, Reconcile(w, true));
      && n.st.fenced == Condition(Yes, d.generation) && n.st.clean == Condition(No, d.generation)
      && (AllSucceed(w.creates, w.classes.value) ==>
            n.st.phase == InUnfencing && forall i | 0 <= i < |w.classes.value| :: w.classes.value[i] in n.st.works)
      && (!AllSucceed(w.creates, w.classes.value) ==> n.st.phase == d.st.phase)
  {
    CreatedOnlyGrows(w, d.st.works, w.classes.value);
  }

  /** What the user decides by hand, or leaves open, is reported as it is, at once, and touches no
      manifest. */
  lemma ManualIsReported(d: DRCluster, w: World)
    requires d.fence in {ManuallyFenced, ManuallyUnfenced, Default}
    ensures
      var n := Next(d, Reconcile(w, true));
      && ReportsFenced(n) == (d.fence == ManuallyFenced)
      && (n.st.clean == Condition(Yes, d.generation) <==> d.fence != ManuallyFenced)
      && n.st.works == d.st.works
      && (n.st.phase == IsFenced <==> d.fence == ManuallyFenced) && (n.st.phase == Available <==> d.fence == Default)
  {
  }

  /** A cluster is left alone exactly when what its spec asks for was seen: fenced, or unfenced and
      cleaned up, or decided by hand. */
  lemma LeftAloneWhenSeen(d: DRCluster, w: World)
    ensures !RequeueAfter(w, d.fence, d.st) <==>
            || (d.fence == Fenced && UnderWay(d) && SawFenced(w))
            || (d.fence == Unfenced && UnderWay(d) && SawUnfenced(w) && Cleaned(w))
            || d.fence in {ManuallyFenced, ManuallyUnfenced, Default}
  {
    if w.classes.Some? {
      CheckedGood(w, w.classes.value);
      CheckedUnfenced(w, w.classes.value);
    }
  }

  // ---------------------------------------------------------------------------
  // Fencing after a manual fence
  // ---------------------------------------------------------------------------

  lemma {:induction false} CreatedOnlyGrows(w: World, works: set<string>, classes: seq<string>)
    ensures works <= Created(w, works, classes)
    ensures AllSucceed(w.creates, classes) ==> forall i | 0 <= i < |classes| :: classes[i] in Created(w, works, classes)
    decreases |classes|
  {
    if classes != [] && w.creates(classes[0]) {
      CreatedOnlyGrows(w, works + {classes[0]}, classes[1..]);
      if AllSucceed(w.creates, classes) {
        assert forall i | 0 <= i < |classes[1..]| :: classes[1..][i] == classes[i + 1];
        assert forall i | 0 < i < |classes| :: classes[i] == classes[1..][i - 1];
      }
    }
  }

  /** With every write succeeding, a reconcile of a Fenced spec leaves a manifest for every class if and
      only if they were there or the phase does not claim that fencing is under way. */
  lemma FencingStartsExactly(w: World, generation: nat, st: Status)
    requires w.classes.Some? && AllSucceed(w.creates, w.classes.value)
    ensures
      var cs := w.classes.value;
      (forall i | 0 <= i < |cs| :: cs[i] in AfterFence(w, generation, st).works) <==>
        st.phase !in {InFencing, IsFenced} || forall i | 0 <= i < |cs| :: cs[i] in st.works
  {
    CreatedOnlyGrows(w, st.works, w.classes.value);
  }

  /** NetworkFences exist on the peer only where a manifest was created; the peer has a class. */
  ghost predicate Consistent(w: World, st: Status) {
    && (w.classes.Some? ==> |w.classes.value| > 0)
    && forall c :: w.nf(c).NF? ==> c in st.works
  }

  ghost predicate OnlyFencing(r: Run, from: nat)
    requires IsRun(r)
  {
    forall i | from <= i < |r.events| :: r.events[i].Reconcile? && Consistent(r.events[i].w, r.states[i].st)
  }

  /** A cluster fenced manually and then asked to be Fenced is never fenced: no manifest is ever created
      and the condition never holds for the new generation, however many reconciles run. */
  lemma {:induction false} ManualFenceBlocksFencing(r: Run, from: nat, k: nat)
    requires IsRun(r) && 0 < from <= k < |r.states| && OnlyFencing(r, from)
    requires r.events[from - 1] == Edit(Fenced) && r.states[from].st.works == {} && r.states[from].st.phase == IsFenced
    ensures r.states[k].fence == Fenced && r.states[k].st.works == {} && r.states[k].st.phase == IsFenced
    ensures !ReportsFenced(r.states[k])
    decreases k
  {
    if k == from {
      SaneAlways(r, from - 1);
      assert r.states[from] == Next(r.states[from - 1], r.events[from - 1]);
    } else {
      ManualFenceBlocksFencing(r, from, k - 1);
      var s, w := r.states[k - 1], r.events[k - 1].w;
      assert r.states[k] == Next(s, r.events[k - 1]);
      if w.classes.Some? {
        assert !w.nf(w.classes.value[0]).NF?;
        assert Checked(w, Fenced, w.classes.value) == Waiting;
      }
    }
  }

  /** Such a state is reached by fencing manually at the start and then asking for Fenced. */
  lemma ManualThenFenced(w: World, generation: nat) returns (r: Run)
    ensures IsRun(r) && |r.events| == 2 && r.events[1] == Edit(Fenced)
    ensures r.states[2].st.works == {} && r.states[2].st.phase == IsFenced
  {
    var unknown := Condition(Unknown, generation);
    var s0 := DRCluster(ManuallyFenced, generation, Status(Starting, unknown, unknown, {}));
    var s1 := Next(s0, Reconcile(w, true));
    r := Run([s0, s1, Next(s1, Edit(Fenced))], [Reconcile(w, true), Edit(Fenced)]);
  }
}
