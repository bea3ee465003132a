/** Subnets and the translation of an address from one subnet into another at the same offset. */
module Subnets {
  import opened Options
  import opened IPv4

  function Pow2(n: nat): (p: nat)
    ensures p >= 1
  {
    if n == 0 then 1 else 2 * Pow2(n - 1)
  }

  lemma Pow2Of32()
    ensures Pow2(32) == SPACE
  {
    assert Pow2(8) == 0x100;
    assert Pow2(16) == 0x1_0000;
    assert Pow2(24) == 0x100_0000;
  }

  /** A number with its `k` lowest bits cleared. */
  function Clear(a: nat, k: nat): (r: nat)
    ensures r <= a
  {
    if k == 0 then a else 2 * Clear(a / 2, k - 1)
  }

  lemma {:induction false} ClearTwice(a: nat, k: nat)
    ensures Clear(Clear(a, k), k) == Clear(a, k)
  {
    if k > 0 {
      var half := Clear(a / 2, k - 1);
      ClearTwice(a / 2, k - 1);
      assert (2 * half) / 2 == half;
      assert Clear(2 * half, k) == 2 * Clear(half, k - 1);
    }
  }

  /** The numbers that agree with `b` above the `k` lowest bits form a range. */
  lemma {:induction false} ClearIsRange(a: nat, b: nat, k: nat)
    requires Clear(b, k) == b
    ensures Clear(a, k) == b <==> b <= a < b + Pow2(k)
  {
    if k > 0 {
      assert b == 2 * Clear(b / 2, k - 1);
      ClearIsRange(a / 2, b / 2, k - 1);
    }
  }

  lemma {:induction false} ClearFits(b: nat, k: nat, m: nat)
    requires Clear(b, k) == b && b < Pow2(m) && k <= m
    ensures b + Pow2(k) <= Pow2(m)
  {
    if k > 0 { ClearFits(b / 2, k - 1, m - 1); }
  }

  /** The number of addresses behind a prefix of `ones` bits. */
  function Size(ones: nat): nat
    requires ones <= 32
  {
    Pow2(32 - ones)
  }

  /** An address with the bits after the prefix cleared. */
  function Masked(a: Addr, ones: nat): Addr
    requires ones <= 32
  {
    Clear(a, 32 - ones)
  }

  datatype Subnet = Subnet(base: Addr, ones: nat)

  /** What a CIDR text denotes: the masked address with its prefix length. */
  function SubnetOf(a: Addr, ones: nat): (n: Subnet)
    requires ones <= 32
    ensures WellFormed(n) && Contains(n, a)
  {
    ClearTwice(a, 32 - ones);
    Subnet(Masked(a, ones), ones)
  }

  predicate WellFormed(n: Subnet) { n.ones <= 32 && Masked(n.base, n.ones) == n.base }

  /** The address agrees with the subnet on the prefix. */
  predicate Contains(n: Subnet, a: Addr)
    requires n.ones <= 32
  {
    Masked(a, n.ones) == Masked(n.base, n.ones)
  }

  /** A subnet is a range of addresses that lies within the address space. */
  lemma SubnetIsRange(n: Subnet, a: Addr)
    requires WellFormed(n)
    ensures Contains(n, a) <==> n.base <= a < n.base + Size(n.ones)
    ensures n.base + Size(n.ones) <= SPACE
  {
    ClearIsRange(a, n.base, 32 - n.ones);
    Pow2Of32();
    ClearFits(n.base, 32 - n.ones, 32);
  }

  // ---------------------------------------------------------------------------
  // Translation
  // ---------------------------------------------------------------------------

  /** The source and destination of a translation: same prefix length, different networks. */
  predicate Paired(src: Subnet, dst: Subnet) {
    WellFormed(src) && WellFormed(dst) && src.ones == dst.ones && src.base != dst.base
  }

  function Wrap(n: int): Addr { n % SPACE }

  /** Moves an address to the same offset of the other subnet, in 32-bit arithmetic; nothing if it is
      not in the source, or if the offset exceeds the destination. */
  function Shifted(src: Subnet, dst: Subnet, a: Addr): Option<Addr>
    requires src.ones <= 32 && dst.ones <= 32
  {
    if !Contains(src, a) then None
    else
      var moved := Wrap(dst.base + Wrap(a - src.base));
      if !Contains(dst, moved) then None else Some(moved)
  }

  /** Paired subnets are disjoint ranges of the same size. */
  lemma PairedAreDisjoint(src: Subnet, dst: Subnet, a: Addr)
    requires Paired(src, dst)
    ensures Size(src.ones) == Size(dst.ones)
    ensures !(Contains(src, a) && Contains(dst, a))
  {
  }

  lemma ShiftKeepsOffset(src: Subnet, dst: Subnet, a: Addr)
    requires Paired(src, dst) && Contains(src, a)
    ensures src.base <= a && dst.base + (a - src.base) < SPACE
    ensures Shifted(src, dst, a) == Some(dst.base + (a - src.base))
    ensures Contains(dst, dst.base + (a - src.base))
  {
    SubnetIsRange(src, a);
    SubnetIsRange(dst, a);
    var moved: Addr := dst.base + (a - src.base);
    SubnetIsRange(dst, moved);
    assert Wrap(a - src.base) == a - src.base;
    assert Wrap(moved) == moved;
  }

  /** Translation is a bijection between paired subnets: it is defined exactly on the source, keeps
      the offset, never wraps around, never finds the offset too large, and is undone by the
      translation back. */
  lemma ShiftIsBijection(src: Subnet, dst: Subnet, a: Addr)
    requires Paired(src, dst)
    ensures Shifted(src, dst, a).Some? <==> Contains(src, a)
    ensures Contains(src, a) ==>
              && a - src.base >= 0 && dst.base + (a - src.base) < SPACE
              && Shifted(src, dst, a) == Some(dst.base + (a - src.base))
              && Contains(dst, Shifted(src, dst, a).value)
              && Shifted(dst, src, Shifted(src, dst, a).value) == Some(a)
  {
    if Contains(src, a) {
      ShiftKeepsOffset(src, dst, a);
      ShiftKeepsOffset(dst, src, Shifted(src, dst, a).value);
    }
  }
}
