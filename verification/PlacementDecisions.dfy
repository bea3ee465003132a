/** The decision list of a user Placement: which clusters carry the workload, and why.

    Ramen owns the PlacementDecision of a protected workload and rewrites its list with four
    operations: create or update the active decision, retain a decision across a failover, drop
    a retained decision, and switch which entry is the active one.  The operations are methods of
    `PlacementObject`; the functions below give the list each of them leaves behind.
 */
module PlacementDecisions {
  import opened Options

  /** Why an entry is in the list.  `Retained` is the reason `RetainedForFailover`. */
  datatype Reason<C> = Retained | Named(name: C) | Unnamed

  datatype Decision<C> = Decision(cluster: C, reason: Reason<C>)

  predicate IsRetained<C>(d: Decision<C>) { d.reason.Retained? }

  predicate IsActive<C>(d: Decision<C>) { !d.reason.Retained? }

  function RetainedOf<C>(l: seq<Decision<C>>): seq<Decision<C>> {
    if l == [] then []
    else
      var front := RetainedOf(l[..|l| - 1]);
      if IsRetained(l[|l| - 1]) then front + [l[|l| - 1]] else front
  }

  function ActiveOf<C>(l: seq<Decision<C>>): seq<Decision<C>> {
    if l == [] then []
    else
      var front := ActiveOf(l[..|l| - 1]);
      if IsActive(l[|l| - 1]) then front + [l[|l| - 1]] else front
  }

  /** What is left when the retained entries of `c` are taken out. */
  function Without<C(==)>(l: seq<Decision<C>>, c: C): seq<Decision<C>> {
    if l == [] then []
    else
      var front := Without(l[..|l| - 1], c);
      if IsRetained(l[|l| - 1]) && l[|l| - 1].cluster == c then front else front + [l[|l| - 1]]
  }

  /** The entries naming `c`, retained or not. */
  function EntriesFor<C(==)>(l: seq<Decision<C>>, c: C): seq<Decision<C>> {
    if l == [] then []
    else
      var front := EntriesFor(l[..|l| - 1], c);
      if l[|l| - 1].cluster == c then front + [l[|l| - 1]] else front
  }

  predicate AtMostOneActive<C>(l: seq<Decision<C>>) { |ActiveOf(l)| <= 1 }

  ghost predicate OneEntryPerCluster<C>(l: seq<Decision<C>>) {
    forall i, j | 0 <= i < j < |l| :: l[i].cluster != l[j].cluster
  }

  /** The decision the orchestrator acts on; more than one active entry reads as none at all. */
  function Current<C>(l: seq<Decision<C>>): (r: Option<Decision<C>>) {
    if |ActiveOf(l)| == 1 then Some(ActiveOf(l)[0]) else None
  }

  function Updated<C>(l: seq<Decision<C>>, next: Option<Decision<C>>): seq<Decision<C>> {
    match next case Some(d) => RetainedOf(l) + [d] case None => RetainedOf(l)
  }

  /** The first active entry of `c`, if any, turned into a retained one. */
  function RetainFirst<C(==)>(l: seq<Decision<C>>, c: C): seq<Decision<C>> {
    if l == [] then []
    else if l[0].cluster == c && IsActive(l[0]) then [Decision(c, Retained)] + l[1..]
    else [l[0]] + RetainFirst(l[1..], c)
  }

  /** Retaining on an empty list records the cluster; otherwise it marks an existing entry. */
  function RetainedFor<C(==)>(l: seq<Decision<C>>, c: C): seq<Decision<C>> {
    if l == [] then [Decision(c, Retained)] else RetainFirst(l, c)
  }

  function SwitchedEntry<C(==)>(d: Decision<C>, c: C): Decision<C> {
    if d.cluster == c then (if IsRetained(d) then Decision(c, Named(c)) else d)
    else Decision(d.cluster, Retained)
  }

  function Switched<C(==)>(l: seq<Decision<C>>, c: C): (r: seq<Decision<C>>)
    ensures |r| == |l|
    ensures forall i | 0 <= i < |l| :: r[i] == SwitchedEntry(l[i], c)
  {
    seq(|l|, i requires 0 <= i < |l| => SwitchedEntry(l[i], c))
  }

  // ---------------------------------------------------------------------------
  // Facts about the functions
  // ---------------------------------------------------------------------------

  lemma {:induction false} ConcatLists<C>(a: seq<Decision<C>>, b: seq<Decision<C>>)
    ensures RetainedOf(a + b) == RetainedOf(a) + RetainedOf(b)
    ensures ActiveOf(a + b) == ActiveOf(a) + ActiveOf(b)
  {
    if b == [] {
      assert a + b == a;
    } else {
      var n := |b| - 1;
      assert (a + b)[..|a + b| - 1] == a + b[..n];
      ConcatLists(a, b[..n]);
    }
  }

  lemma {:induction false} RetainedAreRetained<C>(l: seq<Decision<C>>)
    ensures forall d | d in RetainedOf(l) :: IsRetained(d) && d in l
    ensures forall d | d in l && IsRetained(d) :: d in RetainedOf(l)
    ensures forall d | d in ActiveOf(l) :: IsActive(d) && d in l
    ensures forall d | d in l && IsActive(d) :: d in ActiveOf(l)
    ensures |RetainedOf(l)| + |ActiveOf(l)| == |l|
  {
    if l != [] { RetainedAreRetained(l[..|l| - 1]); }
  }

  lemma {:induction false} FilteringRetained<C>(l: seq<Decision<C>>)
    ensures RetainedOf(RetainedOf(l)) == RetainedOf(l)
    ensures ActiveOf(RetainedOf(l)) == []
  {
    if l != [] {
      var n := |l| - 1;
      FilteringRetained(l[..n]);
      if IsRetained(l[n]) {
        ConcatLists(RetainedOf(l[..n]), [l[n]]);
        assert RetainedOf([l[n]]) == [l[n]] && ActiveOf([l[n]]) == [];
      }
    }
  }

  /** Create/update keeps every retained entry, in order, and leaves exactly the new active one. */
  lemma UpdateKeepsRetained<C>(l: seq<Decision<C>>, next: Option<Decision<C>>)
    requires next.Some? ==> IsActive(next.value)
    ensures RetainedOf(Updated(l, next)) == RetainedOf(l)
    ensures ActiveOf(Updated(l, next)) == if next.Some? then [next.value] else []
    ensures Current(Updated(l, next)) == next
  {
    FilteringRetained(l);
    if next.Some? {
      var one := [next.value];
      ConcatLists(RetainedOf(l), one);
      assert one[..0] == [];
      assert RetainedOf(one) == [] && ActiveOf(one) == one;
    } else {
      assert Updated(l, next) == RetainedOf(l);
    }
  }

  lemma {:induction false} RetainFirstFacts<C>(l: seq<Decision<C>>, c: C)
    ensures |RetainFirst(l, c)| == |l|
    ensures forall i | 0 <= i < |l| :: RetainFirst(l, c)[i].cluster == l[i].cluster
    ensures forall i | 0 <= i < |l| && (IsRetained(l[i]) || l[i].cluster != c) :: RetainFirst(l, c)[i] == l[i]
    ensures (forall i | 0 <= i < |l| :: l[i].cluster != c || IsRetained(l[i])) ==> RetainFirst(l, c) == l
  {
    if l != [] && !(l[0].cluster == c && IsActive(l[0])) {
      RetainFirstFacts(l[1..], c);
    }
  }

  /** Retaining a cluster that has an active entry lowers the number of active entries by one. */
  lemma {:induction false} RetainFirstCount<C>(l: seq<Decision<C>>, c: C)
    ensures |ActiveOf(RetainFirst(l, c))| ==
            |ActiveOf(l)| - if exists i :: 0 <= i < |l| && l[i].cluster == c && IsActive(l[i]) then 1 else 0
  {
    if at: nat :| at < |l| && l[at].cluster == c && IsActive(l[at])
                  && forall i | 0 <= i < at :: l[i].cluster != c || IsRetained(l[i]) {
      RetainFirstAt(l, c, at);
      var front, entry, back := l[..at], [l[at]], l[at + 1..];
      var marked := [Decision(c, Retained)];
      assert l == front + entry + back && RetainFirst(l, c) == front + marked + back;
      ConcatLists(front + entry, back);
      ConcatLists(front, entry);
      ConcatLists(front + marked, back);
      ConcatLists(front, marked);
      assert entry[..0] == marked[..0] == [];
    } else {
      NoFirst(l, c, |l|);
      RetainFirstFacts(l, c);
    }
  }

  lemma {:induction false} NoFirst<C>(l: seq<Decision<C>>, c: C, n: nat)
    requires n <= |l|
    requires !exists at: nat :: at < |l| && l[at].cluster == c && IsActive(l[at])
                && forall i | 0 <= i < at :: l[i].cluster != c || IsRetained(l[i])
    ensures forall i | 0 <= i < n :: l[i].cluster != c || IsRetained(l[i])
  {
    if n > 0 { NoFirst(l, c, n - 1); }
  }

  /** Retaining marks the entry the scan of the list finds first. */
  lemma {:induction false} RetainFirstAt<C>(l: seq<Decision<C>>, c: C, at: nat)
    requires at < |l| && l[at].cluster == c && IsActive(l[at])
    requires forall i | 0 <= i < at :: l[i].cluster != c || IsRetained(l[i])
    ensures RetainFirst(l, c) == l[at := Decision(c, Retained)]
  {
    if at > 0 { RetainFirstAt(l[1..], c, at - 1); }
  }

  /** Retaining leaves a record of the cluster wherever it should: on an empty list, and on a list with an
      active entry for it, which is then no longer active. */
  lemma RetainRecords<C>(l: seq<Decision<C>>, c: C)
    requires AtMostOneActive(l) && (l == [] || exists i :: 0 <= i < |l| && l[i].cluster == c && IsActive(l[i]))
    ensures
      var n := Step(l, Retain(c));
      Decision(c, Retained) in n && Current(n) == None && (l != [] ==> |n| == |l|)
  {
    var n := Step(l, Retain(c));
    if l == [] {
      assert n == [Decision(c, Retained)] && n[..0] == [];
      assert n[0] in n;
    } else {
      var i :| 0 <= i < |l| && l[i].cluster == c && IsActive(l[i]);
      RetainFirstFacts(l, c);
      RetainFirstCount(l, c);
      RetainedAreRetained(n);
      assert ActiveOf(n) == [];
      assert n[i] in n;
      assert IsRetained(n[i]) && n[i] == Decision(c, Retained);
    }
  }

  lemma {:induction false} WithoutFacts<C>(l: seq<Decision<C>>, c: C)
    ensures ActiveOf(Without(l, c)) == ActiveOf(l)
    ensures forall d | d in Without(l, c) :: d in l && !(IsRetained(d) && d.cluster == c)
    ensures forall d | d in l && !(IsRetained(d) && d.cluster == c) :: d in Without(l, c)
  {
    if l != [] {
      var n := |l| - 1;
      assert l == l[..n] + [l[n]];
      WithoutFacts(l[..n], c);
      if !(IsRetained(l[n]) && l[n].cluster == c) {
        ConcatLists(Without(l[..n], c), [l[n]]);
        assert [l[n]][..0] == [];
      }
    }
  }

  lemma {:induction false} WithoutStaysDistinct<C>(l: seq<Decision<C>>, c: C)
    requires OneEntryPerCluster(l)
    ensures OneEntryPerCluster(Without(l, c))
  {
    if l != [] {
      var n := |l| - 1;
      WithoutStaysDistinct(l[..n], c);
      WithoutFacts(l[..n], c);
      forall d | d in Without(l[..n], c) ensures d.cluster != l[n].cluster {
        assert d in l[..n];
      }
    }
  }

  lemma {:induction false} WithoutAbsent<C>(l: seq<Decision<C>>, c: C)
    requires Decision(c, Retained) !in l
    ensures Without(l, c) == l
  {
    if l != [] {
      assert l[|l| - 1] in l;
      WithoutAbsent(l[..|l| - 1], c);
    }
  }

  /** After a switch the active entries are exactly the ones naming the chosen cluster. */
  lemma {:induction false} SwitchActivates<C>(l: seq<Decision<C>>, c: C)
    ensures |ActiveOf(Switched(l, c))| == |EntriesFor(l, c)|
    ensures forall d | d in ActiveOf(Switched(l, c)) :: d.cluster == c
  {
    if l != [] {
      var n := |l| - 1;
      assert Switched(l, c)[..n] == Switched(l[..n], c);
      SwitchActivates(l[..n], c);
    }
  }

  /** A switch leaves at most one active entry if and only if its target had at most one entry. */
  lemma SwitchExact<C>(l: seq<Decision<C>>, c: C)
    ensures AtMostOneActive(Switched(l, c)) <==> |EntriesFor(l, c)| <= 1
  {
    SwitchActivates(l, c);
  }

  lemma {:induction false} EntriesAtMostOne<C>(l: seq<Decision<C>>, c: C)
    requires OneEntryPerCluster(l)
    ensures |EntriesFor(l, c)| <= 1
    ensures (forall d | d in l :: d.cluster != c) ==> EntriesFor(l, c) == []
  {
    if l != [] {
      var n := |l| - 1;
      EntriesAtMostOne(l[..n], c);
      if l[n].cluster == c {
        assert forall d | d in l[..n] :: d.cluster != c;
      }
    }
  }

  lemma {:induction false} RetainedStayDistinct<C>(l: seq<Decision<C>>)
    requires OneEntryPerCluster(l)
    ensures OneEntryPerCluster(RetainedOf(l))
  {
    if l != [] {
      var n := |l| - 1;
      RetainedStayDistinct(l[..n]);
      RetainedAreRetained(l[..n]);
      assert forall d | d in RetainedOf(l[..n]) :: d.cluster != l[n].cluster;
    }
  }

  /** Create/update keeps one entry per cluster if and only if the new cluster is not retained. */
  lemma UpdateKeepsDistinctExactly<C>(l: seq<Decision<C>>, d: Decision<C>)
    requires OneEntryPerCluster(l)
    ensures OneEntryPerCluster(Updated(l, Some(d))) <==> Decision(d.cluster, Retained) !in l
  {
    RetainedStayDistinct(l);
    RetainedAreRetained(l);
    var kept := RetainedOf(l);
    var r := Updated(l, Some(d));
    assert r == kept + [d];
    if Decision(d.cluster, Retained) in l {
      var i :| 0 <= i < |kept| && kept[i] == Decision(d.cluster, Retained);
      assert r[i].cluster == r[|kept|].cluster;
    } else {
      forall i | 0 <= i < |kept| ensures kept[i].cluster != d.cluster {
        assert kept[i] in kept;
        assert kept[i] == Decision(kept[i].cluster, Retained);
      }
    }
  }

  // ---------------------------------------------------------------------------
  // Every sequence of operations
  // ---------------------------------------------------------------------------

  datatype Op<C> = Update(next: Option<Decision<C>>) | Retain(cluster: C) | Drop(cluster: C) | Switch(cluster: C)

  /** Every operation starts by reading the list, and refuses one with several active entries. */
  function Step<C(==)>(l: seq<Decision<C>>, op: Op<C>): seq<Decision<C>> {
    if !AtMostOneActive(l) then l
    else match op
      case Update(next) => Updated(l, next)
      case Retain(c) => RetainedFor(l, c)
      case Drop(c) => Without(l, c)
      case Switch(c) => Switched(l, c)
  }

  function Steps<C(==)>(l: seq<Decision<C>>, ops: seq<Op<C>>): seq<Decision<C>>
    decreases |ops|
  {
    if ops == [] then l else Steps(Step(l, ops[0]), ops[1..])
  }

  ghost predicate OpsActive<C>(ops: seq<Op<C>>) {
    forall op | op in ops && op.Update? && op.next.Some? :: IsActive(op.next.value)
  }

  /** Every switch of the sequence finds at most one entry for its target. */
  ghost predicate SwitchesUnambiguous<C>(l: seq<Decision<C>>, ops: seq<Op<C>>)
    decreases |ops|
  {
    ops == [] ||
    ((ops[0].Switch? ==> |EntriesFor(l, ops[0].cluster)| <= 1) && SwitchesUnambiguous(Step(l, ops[0]), ops[1..]))
  }

  /** No update of the sequence names a cluster that is retained at that point. */
  ghost predicate UpdatesFresh<C>(l: seq<Decision<C>>, ops: seq<Op<C>>)
    decreases |ops|
  {
    ops == [] ||
    ((ops[0].Update? && ops[0].next.Some? ==> Decision(ops[0].next.value.cluster, Retained) !in l) &&
     UpdatesFresh(Step(l, ops[0]), ops[1..]))
  }

  lemma StepKeepsOneActive<C>(l: seq<Decision<C>>, op: Op<C>)
    requires AtMostOneActive(l)
    requires op.Update? && op.next.Some? ==> IsActive(op.next.value)
    requires op.Switch? ==> |EntriesFor(l, op.cluster)| <= 1
    ensures AtMostOneActive(Step(l, op))
  {
    match op
    case Update(next) => UpdateKeepsRetained(l, next);
    case Retain(c) =>
      RetainFirstCount(l, c);
      assert [Decision(c, Retained)][..0] == [];
    case Drop(c) => WithoutFacts(l, c);
    case Switch(c) => SwitchExact(l, c);
  }

  /** At most one active decision, over every sequence whose switches are unambiguous. */
  lemma {:induction false} OneActiveAlways<C>(l: seq<Decision<C>>, ops: seq<Op<C>>)
    requires AtMostOneActive(l) && OpsActive(ops) && SwitchesUnambiguous(l, ops)
    ensures AtMostOneActive(Steps(l, ops))
    decreases |ops|
  {
    if ops != [] {
      StepKeepsOneActive(l, ops[0]);
      OneActiveAlways(Step(l, ops[0]), ops[1..]);
    }
  }

  lemma StepKeepsDistinct<C>(l: seq<Decision<C>>, op: Op<C>)
    requires AtMostOneActive(l) && OneEntryPerCluster(l)
    requires op.Update? && op.next.Some? ==>
               IsActive(op.next.value) && Decision(op.next.value.cluster, Retained) !in l
    ensures AtMostOneActive(Step(l, op)) && OneEntryPerCluster(Step(l, op))
  {
    match op {
      case Update(next) =>
        if next.Some? { UpdateKeepsDistinctExactly(l, next.value); } else { RetainedStayDistinct(l); }
      case Retain(c) => RetainFirstFacts(l, c);
      case Drop(c) => WithoutStaysDistinct(l, c);
      case Switch(_) =>
    }
    if op.Switch? { EntriesAtMostOne(l, op.cluster); }
    StepKeepsOneActive(l, op);
  }

  /** Sequences that never re-place a retained cluster may switch freely: no side condition on
      the switches is left, because one entry per cluster is itself an invariant. */
  lemma {:induction false} FreshUpdatesKeepListSound<C>(l: seq<Decision<C>>, ops: seq<Op<C>>)
    requires AtMostOneActive(l) && OneEntryPerCluster(l) && OpsActive(ops) && UpdatesFresh(l, ops)
    ensures AtMostOneActive(Steps(l, ops)) && OneEntryPerCluster(Steps(l, ops))
    ensures SwitchesUnambiguous(l, ops)
    decreases |ops|
  {
    if ops != [] {
      StepKeepsDistinct(l, ops[0]);
      if ops[0].Switch? { EntriesAtMostOne(l, ops[0].cluster); }
      FreshUpdatesKeepListSound(Step(l, ops[0]), ops[1..]);
    }
  }

  /** Re-placing a retained cluster and then switching to it leaves two active decisions, and
      from there every operation is refused, whatever is asked for. */
  lemma ReplacedThenSwitchedIsStuck<C>(c: C, later: seq<Op<C>>)
    ensures
      var l := [Decision(c, Retained)];
      var l1 := Step(l, Update(Some(Decision(c, Named(c)))));
      var l2 := Step(l1, Switch(c));
      && AtMostOneActive(l) && AtMostOneActive(l1) && !AtMostOneActive(l2)
      && Steps(l2, later) == l2
  {
    var l := [Decision(c, Retained)];
    assert l[..0] == [];
    var l1 := Step(l, Update(Some(Decision(c, Named(c)))));
    assert RetainedOf(l) == l && ActiveOf(l) == [];
    assert l1 == l + [Decision(c, Named(c))];
    assert l1[..1] == l;
    var l2 := Step(l1, Switch(c));
    SwitchActivates(l1, c);
    assert EntriesFor(l, c) == l;
    assert |EntriesFor(l1, c)| == 2;
    Refused(l2, later);
  }

  lemma {:induction false} Refused<C>(l: seq<Decision<C>>, ops: seq<Op<C>>)
    requires !AtMostOneActive(l)
    ensures Steps(l, ops) == l
  {
    if ops != [] { Refused(l, ops[1..]); }
  }

  // ---------------------------------------------------------------------------
  // The operations, as the controller carries them out
  // ---------------------------------------------------------------------------

  /** A Placement and the PlacementDecision that goes with it, `None` while it does not exist.
      `apiOk` says whether the API server accepts the writes of a call. */
  class PlacementObject<C(==)> {
    var stored: Option<seq<Decision<C>>>

    function List(): seq<Decision<C>>
      reads this
    {
      match stored case Some(l) => l case None => []
    }

    /** Reads the list; several active decisions are an error. */
    method Read() returns (ok: bool)
      ensures ok == AtMostOneActive(List())
    {
      var count := 0;
      var l := List();
      for idx := 0 to |l|
        invariant count == |ActiveOf(l[..idx])|
      {
        assert l[..idx + 1][..idx] == l[..idx];
        if l[idx].reason.Retained? { continue; }
        count := count + 1;
      }
      assert l[..|l|] == l;
      ok := count <= 1;
    }

    method GetClusterDecision() returns (r: Option<Decision<C>>)
      ensures r == Current(List())
    {
      var ok := Read();
      if !ok { return None; }
      var l := List();
      for idx := 0 to |l|
        invariant ActiveOf(l[..idx]) == []
      {
        assert l[..idx + 1][..idx] == l[..idx];
        if l[idx].reason.Retained? { continue; }
        assert l == l[..idx + 1] + l[idx + 1..];
        ConcatLists(l[..idx + 1], l[idx + 1..]);
        return Some(l[idx]);
      }
      assert l[..|l|] == l;
      return None;
    }

    method CreateOrUpdate(next: Option<Decision<C>>, apiOk: bool) returns (ok: bool)
      modifies this
      ensures ok == (apiOk && old(AtMostOneActive(List())))
      ensures ok ==> stored == Some(Updated(old(List()), next))
      ensures !ok ==> stored == old(stored)
    {
      ok := Read();
      if !ok || !apiOk { return false; }
      var l := List();
      var decisions: seq<Decision<C>> := [];
      for idx := 0 to |l|
        invariant decisions == RetainedOf(l[..idx])
      {
        assert l[..idx + 1][..idx] == l[..idx];
        if !l[idx].reason.Retained? { continue; }
        decisions := decisions + [l[idx]];
      }
      assert l[..|l|] == l;
      if next.Some? { decisions := decisions + [next.value]; }
      stored := Some(decisions);
    }

    /** Drops the retained entries of `c`; nothing is written when there are none. */
    method RemoveForFailover(c: C, apiOk: bool) returns (ok: bool)
      modifies this
      ensures ok == (old(AtMostOneActive(List())) && (apiOk || Decision(c, Retained) !in old(List())))
      ensures ok ==> List() == Without(old(List()), c)
      ensures !ok ==> stored == old(stored)
    {
      ok := Read();
      if !ok { return; }
      var l := List();
      var dropped := false;
      var decisions: seq<Decision<C>> := [];
      for idx := 0 to |l|
        invariant decisions == Without(l[..idx], c)
        invariant dropped <==> Decision(c, Retained) in l[..idx]
      {
        assert l[..idx + 1][..idx] == l[..idx];
        if l[idx].reason.Retained? && l[idx].cluster == c {
          dropped := true;
          continue;
        }
        decisions := decisions + [l[idx]];
      }
      assert l[..|l|] == l;
      if !dropped {
        WithoutAbsent(l, c);
        return true;
      }
      if !apiOk { return false; }
      stored := Some(decisions);
    }

    /** Marks the decision of `c` as retained, recording `c` when the list is empty. */
    method RetainAsFailover(c: C, apiOk: bool) returns (ok: bool)
      modifies this
      ensures ok ==> List() == RetainedFor(old(List()), c)
      ensures !ok ==> stored == old(stored)
      ensures apiOk ==> ok == old(AtMostOneActive(List()))
      ensures !apiOk && ok ==> stored == old(stored)
    {
      ok := Read();
      if !ok { return; }
      if stored.None? && !apiOk { return false; }
      var l := List();
      if l == [] { l := [Decision(c, Unnamed)]; }
      for idx := 0 to |l|
        invariant forall i | 0 <= i < idx :: l[i].cluster != c || IsRetained(l[i])
        invariant stored == old(stored)
      {
        if l[idx].cluster != c { continue; }
        if l[idx].reason.Retained? { continue; }
        if !apiOk { return false; }
        RetainFirstAt(l, c, idx);
        stored := Some(l[idx := Decision(c, Retained)]);
        return true;
      }
      RetainFirstFacts(l, c);
    }

    /** Makes the entry of `c` the active one and retains every other entry. */
    method SwitchRetain(c: C, apiOk: bool) returns (ok: bool)
      modifies this
      ensures ok == (old(AtMostOneActive(List())) && (apiOk || old(Switched(List(), c) == List())))
      ensures ok ==> List() == Switched(old(List()), c)
      ensures !ok ==> stored == old(stored)
    {
      ok := Read();
      if !ok { return; }
      var l := List();
      var decisions := l;
      var updated := false;
      for idx := 0 to |l|
        invariant stored == old(stored) && |decisions| == |l|
        invariant forall i | 0 <= i < idx :: decisions[i] == SwitchedEntry(l[i], c)
        invariant forall i | idx <= i < |l| :: decisions[i] == l[i]
        invariant updated <==> exists i :: 0 <= i < idx && decisions[i] != l[i]
      {
        if l[idx].cluster == c {
          if l[idx].reason.Retained? {
            decisions := decisions[idx := Decision(c, Named(c))];
            assert decisions[idx] != l[idx];
            updated := true;
          }
        } else if !l[idx].reason.Retained? {
          decisions := decisions[idx := Decision(l[idx].cluster, Retained)];
          assert decisions[idx] != l[idx];
          updated := true;
        }
      }
      assert decisions == Switched(l, c);
      if !updated { return true; }
      if !apiOk { return false; }
      stored := Some(decisions);
    }
  }
}
