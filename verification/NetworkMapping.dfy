/** Translation of the static IP addresses of a workload between the two clusters of a policy.

    A ConfigMap holds one block of rules per network attachment (NAD): explicit address pairs, a pair
    of subnets, and regular expressions.  The rules are validated and compiled, and then consulted in
    that order, from the first cluster to the second or back.
 */
module NetworkMapping {
  import opened Options
  import opened IPv4
  import opened Subnets

  // ---------------------------------------------------------------------------
  // Texts
  // ---------------------------------------------------------------------------

  datatype Prefix = V4(addr: Addr, ones: nat) | V6(bits: nat)

  /** What is used of the `net` and `regexp` packages.  `parse` gives the IPv4 address a text denotes,
      which may also be written as an IPv6 address; `isIP` accepts IPv6 addresses as well; `format`
      writes an address. */
  datatype Lib = Lib(parse: string -> Option<Addr>, format: Addr -> string, isIP: string -> bool,
                     prefix: string -> Option<Prefix>, compiles: string -> bool,
                     matches: (string, string) -> bool, replace: (string, string, string) -> string)

  ghost predicate Sound(lib: Lib) {
    && (forall a: Addr :: lib.parse(lib.format(a)) == Some(a))
    && (forall s | lib.prefix(s).Some? && lib.prefix(s).value.V4? :: lib.prefix(s).value.ones <= 32)
  }

  /** Writing dotted decimals and reading at least those is sound. */
  lemma DottedDecimalIsSound(lib: Lib)
    requires forall a: Addr :: lib.format(a) == Format(a)
    requires forall s | Parse(s).Some? :: lib.parse(s) == Parse(s)
    ensures forall a: Addr :: lib.parse(lib.format(a)) == Some(a)
  {
    forall a: Addr ensures lib.parse(lib.format(a)) == Some(a) {
      ParseFormat(a);
    }
  }

  /** The canonical text of an IPv4 address; any other text as it is. */
  function NormalizeIP(lib: Lib, s: string): string {
    match lib.parse(s) case Some(a) => lib.format(a) case None => s
  }

  predicate Canonical(lib: Lib, s: string) { lib.parse(s).Some? && lib.format(lib.parse(s).value) == s }

  lemma CanonicalTexts(lib: Lib, s: string)
    requires Sound(lib)
    ensures Canonical(lib, s) ==> NormalizeIP(lib, s) == s
    ensures lib.parse(s).Some? ==> Canonical(lib, NormalizeIP(lib, s)) && lib.parse(NormalizeIP(lib, s)) == lib.parse(s)
  {
  }

  // ---------------------------------------------------------------------------
  // Explicit mappings
  // ---------------------------------------------------------------------------

  /** Lookup tables in both directions. */
  datatype Explicit = Explicit(forward: map<string, string>, reverse: map<string, string>)

  datatype Direction = Forward | Reverse

  function Back(d: Direction): Direction { if d == Forward then Reverse else Forward }

  function Table(em: Explicit, d: Direction): map<string, string> {
    if d == Forward then em.forward else em.reverse
  }

  /** A row names an IPv4 address for each of the two clusters, and nothing else. */
  predicate RowOk(lib: Lib, row: map<string, string>, dr1: string, dr2: string) {
    && dr1 in row && dr2 in row && row.Keys <= {dr1, dr2}
    && lib.parse(row[dr1]).Some? && lib.parse(row[dr2]).Some?
  }

  /** One address on each side, in canonical text. */
  datatype Pair = Pair(left: string, right: string)

  function PairOf(lib: Lib, row: map<string, string>, dr1: string, dr2: string): Pair
    requires RowOk(lib, row, dr1, dr2)
  {
    Pair(NormalizeIP(lib, row[dr1]), NormalizeIP(lib, row[dr2]))
  }

  ghost predicate RowsOk(lib: Lib, rows: seq<map<string, string>>, dr1: string, dr2: string) {
    forall i | 0 <= i < |rows| :: RowOk(lib, rows[i], dr1, dr2)
  }

  ghost function Pairs(lib: Lib, rows: seq<map<string, string>>, dr1: string, dr2: string): (ps: seq<Pair>)
    requires RowsOk(lib, rows, dr1, dr2)
    ensures |ps| == |rows| && forall i | 0 <= i < |rows| :: ps[i] == PairOf(lib, rows[i], dr1, dr2)
  {
    seq(|rows|, i requires 0 <= i < |rows| => PairOf(lib, rows[i], dr1, dr2))
  }

  /** The pair uses two addresses, and neither of them is used by the others. */
  ghost predicate Unused(n: Pair, ps: seq<Pair>) {
    && n.left != n.right
    && forall i | 0 <= i < |ps| :: ps[i].left !in {n.left, n.right} && ps[i].right !in {n.left, n.right}
  }

  /** No address is used twice, on either side. */
  ghost predicate Distinct(ps: seq<Pair>) {
    ps == [] || (Unused(ps[|ps| - 1], ps[..|ps| - 1]) && Distinct(ps[..|ps| - 1]))
  }

  /** Distinct, said without an order: no two cells of the table are equal. */
  lemma {:induction false} DistinctPairwise(ps: seq<Pair>)
    ensures Distinct(ps) <==>
            && (forall i, j | 0 <= i < |ps| && 0 <= j < |ps| :: ps[i].left != ps[j].right)
            && (forall i, j | 0 <= i < j < |ps| :: ps[i].left != ps[j].left && ps[i].right != ps[j].right)
  {
    if ps != [] {
      var front, last := ps[..|ps| - 1], ps[|ps| - 1];
      DistinctPairwise(front);
      assert forall i | 0 <= i < |front| :: ps[i] == front[i];
      if Distinct(ps) {
        forall i, j | 0 <= i < |ps| && 0 <= j < |ps| ensures ps[i].left != ps[j].right {
          if i < |front| && j < |front| { assert front[i].left != front[j].right; }
        }
        forall i, j | 0 <= i < j < |ps| ensures ps[i].left != ps[j].left && ps[i].right != ps[j].right {
          if j < |front| { assert front[i].left != front[j].left; }
        }
      }
    }
  }

  lemma {:induction false} DistinctPrefix(ps: seq<Pair>, n: nat)
    requires Distinct(ps) && n <= |ps|
    ensures Distinct(ps[..n])
  {
    if n < |ps| {
      DistinctPrefix(ps[..|ps| - 1], n);
      assert ps[..|ps| - 1][..n] == ps[..n];
    } else {
      assert ps[..n] == ps;
    }
  }

  /** What translation relies on: the tables are inverse to each other, no address is a key of both,
      and all texts are canonical. */
  ghost predicate TablesOk(lib: Lib, em: Explicit) {
    && (forall k | k in em.forward :: em.forward[k] in em.reverse && em.reverse[em.forward[k]] == k)
    && (forall k | k in em.reverse :: em.reverse[k] in em.forward && em.forward[em.reverse[k]] == k)
    && (forall k | k in em.forward :: k !in em.reverse && Canonical(lib, k))
    && (forall k | k in em.reverse :: Canonical(lib, k))
  }

  function With(em: Explicit, n: Pair): Explicit {
    Explicit(em.forward[n.left := n.right], em.reverse[n.right := n.left])
  }

  function TablesOf(ps: seq<Pair>): Explicit {
    if ps == [] then Explicit(map[], map[]) else With(TablesOf(ps[..|ps| - 1]), ps[|ps| - 1])
  }

  /** The new pair uses an address that is already taken, or the same one twice. */
  predicate Clashes(n: Pair, em: Explicit) {
    || n.left == n.right || n.left in em.forward || n.right in em.reverse
    || n.left in em.reverse || n.right in em.forward
  }

  lemma {:induction false} ClashMeansUsed(ps: seq<Pair>, n: Pair)
    ensures Clashes(n, TablesOf(ps)) <==> !Unused(n, ps)
  {
    if ps != [] {
      var front := ps[..|ps| - 1];
      ClashMeansUsed(front, n);
      assert forall i | 0 <= i < |front| :: ps[i] == front[i];
      assert Unused(n, ps) <==> Unused(n, front) && Unused(n, [ps[|ps| - 1]]) by {
        if Unused(n, front) && Unused(n, [ps[|ps| - 1]]) {
          var one := [ps[|ps| - 1]];
          assert one[0].left !in {n.left, n.right} && one[0].right !in {n.left, n.right};
        }
        if Unused(n, ps) {
          assert ps[|ps| - 1].left !in {n.left, n.right} && ps[|ps| - 1].right !in {n.left, n.right};
        }
      }
    }
  }

  lemma AddPairKeepsTables(lib: Lib, em: Explicit, n: Pair)
    requires TablesOk(lib, em) && !Clashes(n, em) && Canonical(lib, n.left) && Canonical(lib, n.right)
    ensures TablesOk(lib, With(em, n))
  {
  }

  /** Every pair is in the tables, both ways, and nothing else is. */
  lemma {:induction false} TablesHoldPairs(ps: seq<Pair>)
    requires Distinct(ps)
    ensures var em := TablesOf(ps);
            && (forall i | 0 <= i < |ps| ::
                  && ps[i].left in em.forward && em.forward[ps[i].left] == ps[i].right
                  && ps[i].right in em.reverse && em.reverse[ps[i].right] == ps[i].left)
            && |em.forward| == |ps| && |em.reverse| == |ps|
  {
    if ps != [] {
      var front, last := ps[..|ps| - 1], ps[|ps| - 1];
      TablesHoldPairs(front);
      ClashMeansUsed(front, last);
      assert forall i | 0 <= i < |front| :: ps[i] == front[i];
    }
  }

  lemma PairIsCanonical(lib: Lib, row: map<string, string>, dr1: string, dr2: string)
    requires Sound(lib) && RowOk(lib, row, dr1, dr2)
    ensures Canonical(lib, PairOf(lib, row, dr1, dr2).left) && Canonical(lib, PairOf(lib, row, dr1, dr2).right)
  {
    CanonicalTexts(lib, row[dr1]);
    CanonicalTexts(lib, row[dr2]);
  }

  lemma RejectRow(ps: seq<Pair>, n: Pair, all: seq<Pair>)
    requires Clashes(n, TablesOf(ps)) && |ps| < |all| && all[..|ps|] == ps && all[|ps|] == n
    ensures !Distinct(all)
  {
    ClashMeansUsed(ps, n);
    if Distinct(all) {
      assert all[..|ps| + 1][..|ps|] == ps;
      DistinctPrefix(all, |ps| + 1);
    }
  }

  lemma AcceptRow(ps: seq<Pair>, n: Pair)
    requires Distinct(ps) && !Clashes(n, TablesOf(ps))
    ensures Distinct(ps + [n]) && TablesOf(ps + [n]) == With(TablesOf(ps), n)
  {
    ClashMeansUsed(ps, n);
    assert (ps + [n])[..|ps|] == ps;
  }

  /** A row that clashes spoils the table; any other one is added to it. */
  lemma NextRow(lib: Lib, rows: seq<map<string, string>>, dr1: string, dr2: string, ps: seq<Pair>, n: Pair)
    requires |ps| < |rows| && Distinct(ps) && RowOk(lib, rows[|ps|], dr1, dr2) && n == PairOf(lib, rows[|ps|], dr1, dr2)
    requires forall i | 0 <= i < |ps| :: RowOk(lib, rows[i], dr1, dr2) && ps[i] == PairOf(lib, rows[i], dr1, dr2)
    ensures Clashes(n, TablesOf(ps)) ==> !(RowsOk(lib, rows, dr1, dr2) && Distinct(Pairs(lib, rows, dr1, dr2)))
    ensures !Clashes(n, TablesOf(ps)) ==> Distinct(ps + [n]) && TablesOf(ps + [n]) == With(TablesOf(ps), n)
  {
    if !Clashes(n, TablesOf(ps)) {
      AcceptRow(ps, n);
    } else if RowsOk(lib, rows, dr1, dr2) {
      assert Pairs(lib, rows, dr1, dr2)[..|ps|] == ps;
      RejectRow(ps, n, Pairs(lib, rows, dr1, dr2));
    }
  }

  /** Tables made from distinct pairs are inverse to each other and share no key. */
  lemma {:induction false} DistinctTablesOk(lib: Lib, ps: seq<Pair>)
    requires Distinct(ps) && forall i | 0 <= i < |ps| :: Canonical(lib, ps[i].left) && Canonical(lib, ps[i].right)
    ensures TablesOk(lib, TablesOf(ps))
  {
    if ps != [] {
      DistinctTablesOk(lib, ps[..|ps| - 1]);
      ClashMeansUsed(ps[..|ps| - 1], ps[|ps| - 1]);
      AddPairKeepsTables(lib, TablesOf(ps[..|ps| - 1]), ps[|ps| - 1]);
    }
  }

  lemma RowTablesOk(lib: Lib, rows: seq<map<string, string>>, dr1: string, dr2: string)
    requires Sound(lib) && RowsOk(lib, rows, dr1, dr2) && Distinct(Pairs(lib, rows, dr1, dr2))
    ensures TablesOk(lib, TablesOf(Pairs(lib, rows, dr1, dr2)))
  {
    var ps := Pairs(lib, rows, dr1, dr2);
    forall i | 0 <= i < |ps| ensures Canonical(lib, ps[i].left) && Canonical(lib, ps[i].right) {
      assert RowOk(lib, rows[i], dr1, dr2);
      PairIsCanonical(lib, rows[i], dr1, dr2);
    }
    DistinctTablesOk(lib, ps);
  }

  /** Adds one pair to the tables, unless one of its addresses is taken. */
  method AddPair(em: Explicit, n: Pair) returns (r: Option<Explicit>)
    ensures r == if Clashes(n, em) then None else Some(With(em, n))
  {
    if n.left == n.right { return None; }
    if n.left in em.forward { return None; }
    if n.right in em.reverse { return None; }
    if n.left in em.reverse { return None; }
    if n.right in em.forward { return None; }
    r := Some(Explicit(em.forward[n.left := n.right], em.reverse[n.right := n.left]));
  }

  /** Compiles the rows; fails on a malformed row or an address used twice, and on nothing else. */
  method ResolveExplicitMappings(lib: Lib, rows: seq<map<string, string>>, dr1: string, dr2: string)
    returns (r: Option<Explicit>)
    requires Sound(lib)
    ensures r.Some? <==> RowsOk(lib, rows, dr1, dr2) && Distinct(Pairs(lib, rows, dr1, dr2))
    ensures r.Some? ==> r.value == TablesOf(Pairs(lib, rows, dr1, dr2)) && TablesOk(lib, r.value)
  {
    var em := Explicit(map[], map[]);
    ghost var ps: seq<Pair> := [];
    for j := 0 to |rows|
      invariant |ps| == j && forall i | 0 <= i < j :: RowOk(lib, rows[i], dr1, dr2) && ps[i] == PairOf(lib, rows[i], dr1, dr2)
      invariant Distinct(ps) && em == TablesOf(ps)
    {
      var row := rows[j];
      if dr1 !in row || dr2 !in row || !(row.Keys <= {dr1, dr2}) { return None; }
      if lib.parse(row[dr1]) == None || lib.parse(row[dr2]) == None { return None; }
      var n := Pair(NormalizeIP(lib, row[dr1]), NormalizeIP(lib, row[dr2]));
      var added := AddPair(em, n);
      NextRow(lib, rows, dr1, dr2, ps, n);
      if added == None { return None; }
      em, ps := added.value, ps + [n];
    }
    assert RowsOk(lib, rows, dr1, dr2) && ps == Pairs(lib, rows, dr1, dr2);
    RowTablesOk(lib, rows, dr1, dr2);
    r := Some(em);
  }

  // ---------------------------------------------------------------------------
  // Subnet pairs and regular expressions
  // ---------------------------------------------------------------------------

  datatype CIDRMapping = CIDRMapping(dr1Net: Subnet, dr2Net: Subnet)

  /** The two networks a section names, if both texts are CIDRs. */
  predicate IsV4(lib: Lib, s: string) { lib.prefix(s).Some? && lib.prefix(s).value.V4? && lib.prefix(s).value.ones <= 32 }

  function NetOf(lib: Lib, s: string): (n: Subnet)
    requires IsV4(lib, s)
    ensures WellFormed(n)
  {
    SubnetOf(lib.prefix(s).value.addr, lib.prefix(s).value.ones)
  }

  /** A section with a CIDR for each cluster, of equal prefix length, IPv4, and not the same network. */
  predicate CIDRsOk(lib: Lib, raw: map<string, string>, dr1: string, dr2: string) {
    && dr1 in raw && dr2 in raw && raw.Keys <= {dr1, dr2}
    && IsV4(lib, raw[dr1]) && IsV4(lib, raw[dr2]) && Paired(NetOf(lib, raw[dr1]), NetOf(lib, raw[dr2]))
  }

  method ResolveCIDR(lib: Lib, raw: map<string, string>, dr1: string, dr2: string) returns (r: Option<CIDRMapping>)
    requires Sound(lib)
    ensures r.Some? <==> CIDRsOk(lib, raw, dr1, dr2)
    ensures r.Some? ==> r.value == CIDRMapping(NetOf(lib, raw[dr1]), NetOf(lib, raw[dr2]))
  {
    if dr1 !in raw || dr2 !in raw || !(raw.Keys <= {dr1, dr2}) { return None; }
    var one, two := lib.prefix(raw[dr1]), lib.prefix(raw[dr2]);
    if one.None? || two.None? { return None; }
    if one.value.V4? != two.value.V4? { return None; }
    if one.value.V6? { return None; }
    if one.value.ones != two.value.ones { return None; }
    var dr1Net, dr2Net := NetOf(lib, raw[dr1]), NetOf(lib, raw[dr2]);
    if dr1Net.base == dr2Net.base { return None; }
    r := Some(CIDRMapping(dr1Net, dr2Net));
  }

  datatype Rule = Rule(pattern: string, replacement: string)

  datatype RegexRules = RegexRules(forward: seq<Rule>, reverse: seq<Rule>)

  ghost predicate RulesOk(lib: Lib, rules: seq<Rule>) {
    |rules| > 0 && forall i | 0 <= i < |rules| ::
      rules[i].pattern != "" && rules[i].replacement != "" && lib.compiles(rules[i].pattern)
  }

  method CompileRegexRules(lib: Lib, raw: seq<Rule>) returns (r: Option<seq<Rule>>)
    requires |raw| > 0
    ensures r == if RulesOk(lib, raw) then Some(raw) else None
  {
    var rules: seq<Rule> := [];
    for j := 0 to |raw|
      invariant rules == raw[..j]
      invariant forall i | 0 <= i < j :: raw[i].pattern != "" && raw[i].replacement != "" && lib.compiles(raw[i].pattern)
    {
      if raw[j].pattern == "" || raw[j].replacement == "" || !lib.compiles(raw[j].pattern) { return None; }
      rules := rules + [raw[j]];
    }
    assert raw[..|raw|] == raw;
    r := Some(rules);
  }

  ghost predicate RegexOk(lib: Lib, raw: map<string, seq<Rule>>, fwdKey: string, revKey: string) {
    && fwdKey in raw && revKey in raw && raw.Keys <= {fwdKey, revKey}
    && RulesOk(lib, raw[fwdKey]) && RulesOk(lib, raw[revKey])
  }

  method ResolveRegexMappings(lib: Lib, raw: map<string, seq<Rule>>, fwdKey: string, revKey: string) returns (r: Option<RegexRules>)
    ensures r.Some? <==> RegexOk(lib, raw, fwdKey, revKey)
    ensures r.Some? ==> r.value == RegexRules(raw[fwdKey], raw[revKey])
  {
    if !(raw.Keys <= {fwdKey, revKey}) { return None; }
    if fwdKey !in raw || |raw[fwdKey]| == 0 { return None; }
    if revKey !in raw || |raw[revKey]| == 0 { return None; }
    var fwd := CompileRegexRules(lib, raw[fwdKey]);
    if fwd.None? { return None; }
    var rev := CompileRegexRules(lib, raw[revKey]);
    if rev.None? { return None; }
    r := Some(RegexRules(fwd.value, rev.value));
  }

  // ---------------------------------------------------------------------------
  // Blocks
  // ---------------------------------------------------------------------------

  datatype NetworkRef = NetworkRef(namespace: string, name: string)

  datatype RawBlock = RawBlock(ref: NetworkRef, cidr: map<string, string>, explicits: seq<map<string, string>>,
                               regexes: map<string, seq<Rule>>)

  datatype Block = Block(ref: NetworkRef, explicits: Option<Explicit>, cidr: Option<CIDRMapping>, regexes: Option<RegexRules>)

  /** What translation relies on in a block. */
  ghost predicate BlockOk(lib: Lib, b: Block) {
    && (b.explicits.Some? ==> TablesOk(lib, b.explicits.value))
    && (b.cidr.Some? ==> Paired(b.cidr.value.dr1Net, b.cidr.value.dr2Net))
    && (b.explicits.Some? || b.cidr.Some? || b.regexes.Some?)
  }

  /** Every section of the block is valid, and there is one. */
  ghost predicate RawOk(lib: Lib, raw: RawBlock, dr1: string, dr2: string) {
    && (|raw.explicits| > 0 ==> RowsOk(lib, raw.explicits, dr1, dr2) && Distinct(Pairs(lib, raw.explicits, dr1, dr2)))
    && (|raw.cidr| > 0 ==> CIDRsOk(lib, raw.cidr, dr1, dr2))
    && (|raw.regexes| > 0 ==> RegexOk(lib, raw.regexes, dr1 + "-to-" + dr2, dr2 + "-to-" + dr1))
    && (|raw.explicits| > 0 || |raw.cidr| > 0 || |raw.regexes| > 0)
  }

  /** What a valid block means: the tables of its rows, the networks of its CIDRs, and its rules by
      direction; an empty section means nothing. */
  ghost function ResolvedOf(lib: Lib, raw: RawBlock, dr1: string, dr2: string): Block
    requires RawOk(lib, raw, dr1, dr2)
  {
    Block(raw.ref,
          if |raw.explicits| > 0 then Some(TablesOf(Pairs(lib, raw.explicits, dr1, dr2))) else None,
          if |raw.cidr| > 0 then Some(CIDRMapping(NetOf(lib, raw.cidr[dr1]), NetOf(lib, raw.cidr[dr2]))) else None,
          if |raw.regexes| > 0
          then Some(RegexRules(raw.regexes[dr1 + "-to-" + dr2], raw.regexes[dr2 + "-to-" + dr1])) else None)
  }

  /** What a block must hold to be accepted: an IPv4 address for each of the two clusters in every row, a
      CIDR for each, and a list of rules that compile for each direction, under these keys and no other. */
  lemma ValidBlockHolds(lib: Lib, raw: RawBlock, dr1: string, dr2: string)
    requires RawOk(lib, raw, dr1, dr2)
    ensures forall i | 0 <= i < |raw.explicits| ::
              && raw.explicits[i].Keys == {dr1, dr2}
              && lib.parse(raw.explicits[i][dr1]).Some? && lib.parse(raw.explicits[i][dr2]).Some?
    ensures |raw.cidr| > 0 ==>
              && raw.cidr.Keys == {dr1, dr2} && lib.prefix(raw.cidr[dr1]).Some? && lib.prefix(raw.cidr[dr2]).Some?
              && var one, two := lib.prefix(raw.cidr[dr1]).value, lib.prefix(raw.cidr[dr2]).value;
                 one.V4? && two.V4? && one.ones == two.ones
    ensures |raw.regexes| > 0 ==>
              && raw.regexes.Keys == {dr1 + "-to-" + dr2, dr2 + "-to-" + dr1}
              && forall k | k in raw.regexes ::
                   && raw.regexes[k] != []
                   && forall i | 0 <= i < |raw.regexes[k]| ::
                        raw.regexes[k][i].pattern != "" && raw.regexes[k][i].replacement != "" && lib.compiles(raw.regexes[k][i].pattern)
  {
    forall i | 0 <= i < |raw.explicits| ensures raw.explicits[i].Keys == {dr1, dr2} {
      assert RowOk(lib, raw.explicits[i], dr1, dr2);
    }
    assert |raw.cidr| > 0 ==> raw.cidr.Keys == {dr1, dr2};
    assert |raw.regexes| > 0 ==> raw.regexes.Keys == {dr1 + "-to-" + dr2, dr2 + "-to-" + dr1};
  }

  method ResolveBlock(lib: Lib, raw: RawBlock, dr1: string, dr2: string) returns (r: Option<Block>)
    requires Sound(lib)
    ensures r.Some? <==> RawOk(lib, raw, dr1, dr2)
    ensures r.Some? ==> r.value == ResolvedOf(lib, raw, dr1, dr2) && BlockOk(lib, r.value)
  {
    var block := Block(raw.ref, None, None, None);
    if |raw.explicits| > 0 {
      var em := ResolveExplicitMappings(lib, raw.explicits, dr1, dr2);
      if em.None? { return None; }
      block := block.(explicits := em);
    }
    if |raw.cidr| > 0 {
      var cm := ResolveCIDR(lib, raw.cidr, dr1, dr2);
      if cm.None? { return None; }
      block := block.(cidr := cm);
    }
    if |raw.regexes| > 0 {
      var rr := ResolveRegexMappings(lib, raw.regexes, dr1 + "-to-" + dr2, dr2 + "-to-" + dr1);
      if rr.None? { return None; }
      block := block.(regexes := rr);
    }
    if block.explicits.None? && block.cidr.None? && block.regexes.None? { return None; }
    r := Some(block);
  }

  function NadKey(ref: NetworkRef): string { ref.namespace + "/" + ref.name }

  /** Each block is for its own NAD. */
  ghost predicate RefsDistinct(blocks: seq<Block>) {
    forall i, j | 0 <= i < j < |blocks| :: blocks[i].ref != blocks[j].ref
  }

  ghost predicate RulesValid(lib: Lib, blocks: seq<Block>) {
    RefsDistinct(blocks) && forall i | 0 <= i < |blocks| :: BlockOk(lib, blocks[i])
  }

  ghost predicate EntryOk(lib: Lib, raw: RawBlock, dr1: string, dr2: string) {
    raw.ref.namespace != "" && raw.ref.name != "" && RawOk(lib, raw, dr1, dr2)
  }

  ghost predicate ConfigOk(lib: Lib, raws: seq<RawBlock>, dr1: string, dr2: string) {
    && |raws| > 0
    && (forall i | 0 <= i < |raws| :: EntryOk(lib, raws[i], dr1, dr2))
    && KeysDistinct(raws)
  }

  ghost predicate KeysDistinct(raws: seq<RawBlock>) {
    forall i, j | 0 <= i < j < |raws| :: NadKey(raws[i].ref) != NadKey(raws[j].ref)
  }

  /** `seen` records the keys of the first `n` blocks. */
  ghost predicate Records(seen: map<string, nat>, raws: seq<RawBlock>, n: nat)
    requires n <= |raws|
  {
    && (forall j | 0 <= j < n :: NadKey(raws[j].ref) in seen && seen[NadKey(raws[j].ref)] == j)
    && (forall k | k in seen :: seen[k] < n && NadKey(raws[seen[k]].ref) == k)
  }

  lemma RecordBlock(seen: map<string, nat>, raws: seq<RawBlock>, n: nat)
    requires n < |raws| && Records(seen, raws, n)
    ensures if NadKey(raws[n].ref) in seen then !KeysDistinct(raws)
            else Records(seen[NadKey(raws[n].ref) := n], raws, n + 1)
  {
    var key := NadKey(raws[n].ref);
    if key in seen { assert NadKey(raws[seen[key]].ref) == key; }
  }

  lemma RecordedAreDistinct(seen: map<string, nat>, raws: seq<RawBlock>, blocks: seq<Block>)
    requires Records(seen, raws, |raws|) && |blocks| == |raws| && forall i | 0 <= i < |raws| :: blocks[i].ref == raws[i].ref
    ensures KeysDistinct(raws) && RefsDistinct(blocks)
  {
  }

  /** Validates and compiles a configuration, block by block. */
  method ResolveAndValidate(lib: Lib, raws: seq<RawBlock>, dr1: string, dr2: string) returns (r: Option<seq<Block>>)
    requires Sound(lib)
    ensures r.Some? <==> ConfigOk(lib, raws, dr1, dr2)
    ensures r.Some? ==> |r.value| == |raws| && RulesValid(lib, r.value)
    ensures r.Some? ==> forall i | 0 <= i < |raws| :: r.value[i] == ResolvedOf(lib, raws[i], dr1, dr2)
  {
    if |raws| == 0 { return None; }
    var blocks: seq<Block>, seen: map<string, nat> := [], map[];
    for i := 0 to |raws|
      invariant |blocks| == i && forall j | 0 <= j < i :: BlockOk(lib, blocks[j])
      invariant forall j | 0 <= j < i :: EntryOk(lib, raws[j], dr1, dr2) && blocks[j] == ResolvedOf(lib, raws[j], dr1, dr2)
      invariant Records(seen, raws, i)
    {
      var raw := raws[i];
      if raw.ref.namespace == "" { return None; }
      if raw.ref.name == "" { return None; }
      RecordBlock(seen, raws, i);
      if NadKey(raw.ref) in seen { return None; }
      seen := seen[NadKey(raw.ref) := i];
      var block := ResolveBlock(lib, raw, dr1, dr2);
      if block.None? { return None; }
      blocks := blocks + [block.value];
    }
    RecordedAreDistinct(seen, raws, blocks);
    r := Some(blocks);
  }

  /** Namespaces hold no slash, so equal keys mean equal references and no two NADs are confused. */
  lemma {:induction false} NadKeyInjective(a: NetworkRef, b: NetworkRef)
    requires '/' !in a.namespace && '/' !in b.namespace && NadKey(a) == NadKey(b)
    ensures a == b
  {
    var n, m := |a.namespace|, |b.namespace|;
    assert NadKey(a)[n] == '/' && NadKey(b)[m] == '/';
    assert n == m;
    assert NadKey(a)[..n] == a.namespace && NadKey(b)[..n] == b.namespace;
    assert NadKey(a)[n + 1..] == a.name && NadKey(b)[n + 1..] == b.name;
  }

  function FindBlock(blocks: seq<Block>, ref: NetworkRef): Option<Block> {
    if blocks == [] then None else if blocks[0].ref == ref then Some(blocks[0]) else FindBlock(blocks[1..], ref)
  }

  lemma {:induction false} FindBlockExact(blocks: seq<Block>, ref: NetworkRef)
    ensures match FindBlock(blocks, ref)
            case Some(b) => b in blocks && b.ref == ref
            case None => forall b | b in blocks :: b.ref != ref
  {
    if blocks != [] && blocks[0].ref != ref { FindBlockExact(blocks[1..], ref); }
  }

  /** In a validated configuration the order of the blocks does not matter. */
  lemma FindBlockIgnoresOrder(blocks: seq<Block>, shuffled: seq<Block>, ref: NetworkRef)
    requires RefsDistinct(blocks) && forall b :: b in blocks <==> b in shuffled
    ensures FindBlock(shuffled, ref) == FindBlock(blocks, ref)
  {
    FindBlockExact(blocks, ref);
    FindBlockExact(shuffled, ref);
    var one, two := FindBlock(blocks, ref), FindBlock(shuffled, ref);
    if one.Some? && two.Some? {
      var i :| 0 <= i < |blocks| && blocks[i] == one.value;
      var j :| 0 <= j < |blocks| && blocks[j] == two.value;
    }
  }

  // ---------------------------------------------------------------------------
  // Translation
  // ---------------------------------------------------------------------------

  datatype RuleType = ByExplicit | ByCIDR | ByRegex

  datatype Translation = Translated(ip: string, rule: RuleType) | Untranslated

  function LookupExplicit(lib: Lib, s: string, em: Explicit, d: Direction): Option<string> {
    var key := NormalizeIP(lib, s);
    if key in Table(em, d) then Some(Table(em, d)[key]) else None
  }

  function Source(cm: CIDRMapping, d: Direction): Subnet { if d == Forward then cm.dr1Net else cm.dr2Net }

  function ApplyCIDR(lib: Lib, s: string, cm: CIDRMapping, d: Direction): Option<string>
    requires cm.dr1Net.ones <= 32 && cm.dr2Net.ones <= 32
  {
    match lib.parse(s)
    case None => None
    case Some(a) =>
      match Shifted(Source(cm, d), Source(cm, Back(d)), a)
      case None => None
      case Some(b) => Some(lib.format(b))
  }

  /** The first matching rule decides, even if what it produces is not an address. */
  function ApplyRegexRules(lib: Lib, s: string, rules: seq<Rule>): Option<string> {
    if rules == [] then None
    else if !lib.matches(rules[0].pattern, s) then ApplyRegexRules(lib, s, rules[1..])
    else
      var out := lib.replace(rules[0].pattern, s, rules[0].replacement);
      if lib.isIP(out) then Some(out) else None
  }

  function TranslateIn(lib: Lib, s: string, b: Block, d: Direction): Translation
    requires b.cidr.Some? ==> b.cidr.value.dr1Net.ones <= 32 && b.cidr.value.dr2Net.ones <= 32
  {
    var byTable := if b.explicits.Some? then LookupExplicit(lib, s, b.explicits.value, d) else None;
    if byTable.Some? then Translated(byTable.value, ByExplicit)
    else
      var byOffset := if b.cidr.Some? then ApplyCIDR(lib, s, b.cidr.value, d) else None;
      if byOffset.Some? then Translated(byOffset.value, ByCIDR)
      else if b.regexes.Some? then
        var rules := if d == Forward then b.regexes.value.forward else b.regexes.value.reverse;
        match ApplyRegexRules(lib, s, rules) case Some(ip) => Translated(ip, ByRegex) case None => Untranslated
      else Untranslated
  }

  function TranslateIP(lib: Lib, s: string, blocks: seq<Block>, d: Direction, ref: NetworkRef): Translation
    requires forall b | b in blocks && b.cidr.Some? :: b.cidr.value.dr1Net.ones <= 32 && b.cidr.value.dr2Net.ones <= 32
  {
    FindBlockExact(blocks, ref);
    match FindBlock(blocks, ref) case Some(b) => TranslateIn(lib, s, b, d) case None => Untranslated
  }

  /** An explicit translation is undone by the translation back, whatever else the block holds. */
  lemma ExplicitRoundTrip(lib: Lib, s: string, b: Block, d: Direction)
    requires Sound(lib) && BlockOk(lib, b)
    requires var t := TranslateIn(lib, s, b, d); t.Translated? && t.rule == ByExplicit
    ensures TranslateIn(lib, TranslateIn(lib, s, b, d).ip, b, Back(d)) == Translated(NormalizeIP(lib, s), ByExplicit)
  {
    var em, key := b.explicits.value, NormalizeIP(lib, s);
    var out := Table(em, d)[key];
    assert out in Table(em, Back(d)) && Table(em, Back(d))[out] == key;
    CanonicalTexts(lib, out);
  }

  /** The address is one an explicit row names on the side the translation leads to. */
  predicate NamedThere(b: Block, d: Direction, ip: string) {
    b.explicits.Some? && ip in Table(b.explicits.value, Back(d))
  }

  /** A translation by offset is undone by the translation back if and only if its result is not an
      explicit address of the other side, whatever the regular expressions. */
  lemma CIDRRoundTripExactly(lib: Lib, s: string, b: Block, d: Direction)
    requires Sound(lib) && BlockOk(lib, b)
    requires var t := TranslateIn(lib, s, b, d); t.Translated? && t.rule == ByCIDR
    ensures
      var out := TranslateIn(lib, s, b, d).ip;
      var back := TranslateIn(lib, out, b, Back(d));
      && (back == Translated(NormalizeIP(lib, s), ByCIDR) <==> !NamedThere(b, d, out))
      && (back.Translated? && back.ip == NormalizeIP(lib, s) <==> !NamedThere(b, d, out))
  {
    var cm, a := b.cidr.value, lib.parse(s).value;
    var src, dst := Source(cm, d), Source(cm, Back(d));
    ShiftIsBijection(src, dst, a);
    var moved := Shifted(src, dst, a).value;
    var out := lib.format(moved);
    assert lib.parse(out) == Some(moved) && NormalizeIP(lib, out) == out;
    assert ApplyCIDR(lib, out, cm, Back(d)) == Some(NormalizeIP(lib, s));
    if NamedThere(b, d, out) {
      var em := b.explicits.value;
      var back := Table(em, Back(d))[out];
      assert Table(em, d)[back] == out;
    }
  }

  /** The same for whole configurations. */
  lemma TranslationRoundTrip(lib: Lib, s: string, blocks: seq<Block>, d: Direction, ref: NetworkRef)
    requires Sound(lib) && RulesValid(lib, blocks)
    ensures forall b | b in blocks && b.cidr.Some? :: b.cidr.value.dr1Net.ones <= 32 && b.cidr.value.dr2Net.ones <= 32
    ensures
      var t := TranslateIP(lib, s, blocks, d, ref);
      t.Translated? && t.rule != ByRegex ==>
        && FindBlock(blocks, ref).Some?
        && (TranslateIP(lib, t.ip, blocks, Back(d), ref) == Translated(NormalizeIP(lib, s), t.rule) <==>
              t.rule == ByExplicit || !NamedThere(FindBlock(blocks, ref).value, d, t.ip))
  {
    FindBlockExact(blocks, ref);
    if FindBlock(blocks, ref).Some? {
      var b := FindBlock(blocks, ref).value;
      var i :| 0 <= i < |blocks| && blocks[i] == b;
      var t := TranslateIn(lib, s, b, d);
      if t.Translated? && t.rule == ByExplicit { ExplicitRoundTrip(lib, s, b, d); }
      if t.Translated? && t.rule == ByCIDR { CIDRRoundTripExactly(lib, s, b, d); }
    }
  }

  // ---------------------------------------------------------------------------
  // What a configuration makes of an address
  // ---------------------------------------------------------------------------

  /** Forward leads from the first cluster to the second, Reverse back. */
  function From(d: Direction, dr1: string, dr2: string): string { match d case Forward => dr1 case Reverse => dr2 }

  function To(d: Direction, dr1: string, dr2: string): string { match d case Forward => dr2 case Reverse => dr1 }

  /** An address that a row names for the cluster it comes from becomes the one the row names for the
      other cluster, whatever else the block holds. */
  lemma RowDecides(lib: Lib, raw: RawBlock, dr1: string, dr2: string, i: nat, d: Direction)
    requires Sound(lib) && RawOk(lib, raw, dr1, dr2) && i < |raw.explicits|
    ensures RowOk(lib, raw.explicits[i], dr1, dr2)
    ensures
      var row, b := raw.explicits[i], ResolvedOf(lib, raw, dr1, dr2);
      TranslateIn(lib, row[From(d, dr1, dr2)], b, d) == Translated(NormalizeIP(lib, row[To(d, dr1, dr2)]), ByExplicit)
  {
    var ps := Pairs(lib, raw.explicits, dr1, dr2);
    TablesHoldPairs(ps);
    assert ps[i] == PairOf(lib, raw.explicits[i], dr1, dr2);
  }

  /** No row names the address for the cluster it comes from. */
  ghost predicate Unnamed(lib: Lib, raw: RawBlock, dr: string, s: string)
    requires forall i | 0 <= i < |raw.explicits| :: dr in raw.explicits[i]
  {
    forall i | 0 <= i < |raw.explicits| :: NormalizeIP(lib, raw.explicits[i][dr]) != NormalizeIP(lib, s)
  }

  lemma {:induction false} KeysAreNamed(ps: seq<Pair>, k: string)
    ensures k in TablesOf(ps).forward ==> exists i :: 0 <= i < |ps| && ps[i].left == k
    ensures k in TablesOf(ps).reverse ==> exists i :: 0 <= i < |ps| && ps[i].right == k
  {
    if ps != [] {
      var n := |ps| - 1;
      KeysAreNamed(ps[..n], k);
      if k in TablesOf(ps).forward && k != ps[n].left {
        var i :| 0 <= i < n && ps[..n][i].left == k;
        assert ps[i].left == k;
      }
      if k in TablesOf(ps).reverse && k != ps[n].right {
        var i :| 0 <= i < n && ps[..n][i].right == k;
        assert ps[i].right == k;
      }
    }
  }

  lemma UnnamedMisses(lib: Lib, raw: RawBlock, dr1: string, dr2: string, s: string, d: Direction)
    requires RawOk(lib, raw, dr1, dr2) && |raw.explicits| > 0
    requires
      && (forall i | 0 <= i < |raw.explicits| :: From(d, dr1, dr2) in raw.explicits[i])
      && Unnamed(lib, raw, From(d, dr1, dr2), s)
    ensures LookupExplicit(lib, s, ResolvedOf(lib, raw, dr1, dr2).explicits.value, d) == None
  {
    var ps, key := Pairs(lib, raw.explicits, dr1, dr2), NormalizeIP(lib, s);
    KeysAreNamed(ps, key);
    assert forall i | 0 <= i < |ps| :: RowOk(lib, raw.explicits[i], dr1, dr2) && ps[i] == PairOf(lib, raw.explicits[i], dr1, dr2);
  }

  lemma OffsetInBlock(lib: Lib, s: string, b: Block, d: Direction, a: Addr)
    requires b.cidr.Some? && Paired(b.cidr.value.dr1Net, b.cidr.value.dr2Net) && lib.parse(s) == Some(a)
    requires b.explicits.Some? ==> LookupExplicit(lib, s, b.explicits.value, d) == None
    requires Contains(Source(b.cidr.value, d), a)
    ensures
      var src, dst := Source(b.cidr.value, d), Source(b.cidr.value, Back(d));
      && 0 <= a - src.base && dst.base + (a - src.base) < SPACE
      && TranslateIn(lib, s, b, d) == Translated(lib.format(dst.base + (a - src.base)), ByCIDR)
  {
    ShiftIsBijection(Source(b.cidr.value, d), Source(b.cidr.value, Back(d)), a);
  }

  /** An address of the network of the cluster it comes from that no row names moves to the same offset
      of the other cluster's network, whatever the regular expressions. */
  lemma OffsetDecides(lib: Lib, raw: RawBlock, dr1: string, dr2: string, s: string, d: Direction)
    requires Sound(lib) && RawOk(lib, raw, dr1, dr2) && |raw.cidr| > 0 && lib.parse(s).Some?
    requires (forall i | 0 <= i < |raw.explicits| :: From(d, dr1, dr2) in raw.explicits[i]) && Unnamed(lib, raw, From(d, dr1, dr2), s)
    requires Contains(NetOf(lib, raw.cidr[From(d, dr1, dr2)]), lib.parse(s).value)
    ensures
      var a, src, dst := lib.parse(s).value, NetOf(lib, raw.cidr[From(d, dr1, dr2)]), NetOf(lib, raw.cidr[To(d, dr1, dr2)]);
      && 0 <= a - src.base && dst.base + (a - src.base) < SPACE
      && TranslateIn(lib, s, ResolvedOf(lib, raw, dr1, dr2), d) == Translated(lib.format(dst.base + (a - src.base)), ByCIDR)
  {
    if |raw.explicits| > 0 { UnnamedMisses(lib, raw, dr1, dr2, s, d); }
    OffsetInBlock(lib, s, ResolvedOf(lib, raw, dr1, dr2), d, lib.parse(s).value);
  }

  /** Rule `i` is the first one that matches. */
  ghost predicate FirstMatch(lib: Lib, rules: seq<Rule>, s: string, i: nat) {
    && i < |rules| && lib.matches(rules[i].pattern, s)
    && forall j | 0 <= j < i :: !lib.matches(rules[j].pattern, s)
  }

  lemma {:induction false} RulesDecide(lib: Lib, s: string, rules: seq<Rule>)
    ensures forall i: nat | FirstMatch(lib, rules, s, i) ::
              var out := lib.replace(rules[i].pattern, s, rules[i].replacement);
              ApplyRegexRules(lib, s, rules) == if lib.isIP(out) then Some(out) else None
    ensures (forall i | 0 <= i < |rules| :: !lib.matches(rules[i].pattern, s)) ==> ApplyRegexRules(lib, s, rules) == None
  {
    if rules != [] && !lib.matches(rules[0].pattern, s) {
      var rest := rules[1..];
      RulesDecide(lib, s, rest);
      forall i: nat | FirstMatch(lib, rules, s, i)
        ensures var out := lib.replace(rules[i].pattern, s, rules[i].replacement);
                ApplyRegexRules(lib, s, rules) == if lib.isIP(out) then Some(out) else None
      {
        assert forall j | 0 <= j < i - 1 :: rest[j] == rules[j + 1];
        assert FirstMatch(lib, rest, s, i - 1);
      }
    }
  }

  lemma RegexInBlock(lib: Lib, s: string, b: Block, d: Direction)
    requires b.cidr.Some? ==> Paired(b.cidr.value.dr1Net, b.cidr.value.dr2Net)
    requires b.regexes.Some? && (b.explicits.Some? ==> LookupExplicit(lib, s, b.explicits.value, d) == None)
    requires b.cidr.Some? && lib.parse(s).Some? ==> !Contains(Source(b.cidr.value, d), lib.parse(s).value)
    ensures
      var rules := match d case Forward => b.regexes.value.forward case Reverse => b.regexes.value.reverse;
      TranslateIn(lib, s, b, d) ==
        match ApplyRegexRules(lib, s, rules) case Some(ip) => Translated(ip, ByRegex) case None => Untranslated
  {
  }

  /** An address that neither a row names nor the network of its cluster contains is left to the rules
      of the direction it goes: the first one that matches gives the result, and there is none if what
      it gives is not an address, or if no rule matches. */
  lemma RegexDecides(lib: Lib, raw: RawBlock, dr1: string, dr2: string, s: string, d: Direction)
    requires Sound(lib) && RawOk(lib, raw, dr1, dr2) && |raw.regexes| > 0
    requires (forall i | 0 <= i < |raw.explicits| :: From(d, dr1, dr2) in raw.explicits[i]) && Unnamed(lib, raw, From(d, dr1, dr2), s)
    requires |raw.cidr| > 0 && lib.parse(s).Some? ==> !Contains(NetOf(lib, raw.cidr[From(d, dr1, dr2)]), lib.parse(s).value)
    ensures From(d, dr1, dr2) + "-to-" + To(d, dr1, dr2) in raw.regexes
    ensures
      var rules, t := raw.regexes[From(d, dr1, dr2) + "-to-" + To(d, dr1, dr2)], TranslateIn(lib, s, ResolvedOf(lib, raw, dr1, dr2), d);
      && (forall i: nat | FirstMatch(lib, rules, s, i) ::
            var out := lib.replace(rules[i].pattern, s, rules[i].replacement);
            t == if lib.isIP(out) then Translated(out, ByRegex) else Untranslated)
      && ((forall i | 0 <= i < |rules| :: !lib.matches(rules[i].pattern, s)) ==> t == Untranslated)
  {
    if |raw.explicits| > 0 { UnnamedMisses(lib, raw, dr1, dr2, s, d); }
    RegexInBlock(lib, s, ResolvedOf(lib, raw, dr1, dr2), d);
    RulesDecide(lib, s, raw.regexes[From(d, dr1, dr2) + "-to-" + To(d, dr1, dr2)]);
  }
}
