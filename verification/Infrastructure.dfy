/** Instance-local addresses: CIDR ranges by shift and mask, and the IPv4 addresses inside IPv6. */
module Infrastructure {

  function Pow2(n: nat): (r: nat)
    ensures r > 0
  {
    if n == 0 then 1 else 2 * Pow2(n - 1)
  }

  /** Bitwise conjunction. */
  function And(a: nat, b: nat): nat {
    if a == 0 then 0 else (a % 2) * (b % 2) + 2 * And(a / 2, b / 2)
  }

  /** A left shift in a word of the given width: high bits are lost. */
  function Shifted(x: nat, k: nat, width: nat): nat { x * Pow2(k) % Pow2(width) }

  /** The mask of a prefix: all ones, shifted left by the rest of the width. */
  function Mask(prefix: nat, width: nat): nat
    requires prefix <= width
  {
    Shifted(Pow2(width) - 1, width - prefix, width)
  }

  /** The test of `contains`, for one address family. */
  predicate Contains(network: nat, ip: nat, prefix: nat, width: nat)
    requires prefix <= width
  {
    And(network, Mask(prefix, width)) == And(ip, Mask(prefix, width))
  }

  lemma {:induction false} PowSum(a: nat, b: nat)
    ensures Pow2(a + b) == Pow2(a) * Pow2(b)
  {
    if a > 0 { PowSum(a - 1, b); }
  }

  lemma {:induction false} Multiple(d: int, m: int)
    requires m > 0
    ensures (d > 0 ==> d * m >= m) && (d < 0 ==> d * m <= -m)
  {
  }

  lemma {:induction false} ModUnique(x: int, m: int, q: int, r: int)
    requires m > 0 && x == q * m + r && 0 <= r < m
    ensures x % m == r && x / m == q
  {
    var d := x / m - q;
    Multiple(d, m);
    assert x == (x / m) * m + x % m;
    assert d * m == (x / m) * m - q * m;
  }

  /** The highest bits of a word. */
  function HighBits(prefix: nat, k: nat): nat { if k == 0 then Pow2(prefix) - 1 else 2 * HighBits(prefix, k - 1) }

  lemma {:induction false} HighBitsAre(prefix: nat, k: nat)
    ensures HighBits(prefix, k) == Pow2(prefix + k) - Pow2(k)
  {
    if k > 0 { HighBitsAre(prefix, k - 1); }
  }

  lemma {:induction false} Larger(a: nat, b: nat)
    requires a <= b
    ensures Pow2(a) <= Pow2(b)
  {
    if a < b { Larger(a, b - 1); }
  }

  /** The mask of a prefix is the high bits of the word. */
  lemma {:induction false} MaskIs(prefix: nat, width: nat)
    requires 1 <= prefix <= width
    ensures Mask(prefix, width) == HighBits(prefix, width - prefix)
  {
    var p, w := Pow2(width - prefix), Pow2(width);
    HighBitsAre(prefix, width - prefix);
    Larger(width - prefix, width);
    ShiftedOnes(w, p);
  }

  /** All ones, times a power of two, in a word. */
  lemma {:induction false} ShiftedOnes(w: nat, p: nat)
    requires 0 < p <= w
    ensures (w - 1) * p % w == w - p
  {
    var q := w * p;
    assert (w - 1) * p == q - p && (p - 1) * w == q - w;
    ModUnique((w - 1) * p, w, p - 1, w - p);
  }

  lemma {:induction false} AndOnes(x: nat, n: nat)
    requires x < Pow2(n)
    ensures And(x, Pow2(n) - 1) == x
  {
    if x > 0 {
      assert n > 0;
      assert (Pow2(n) - 1) % 2 == 1 && (Pow2(n) - 1) / 2 == Pow2(n - 1) - 1;
      AndOnes(x / 2, n - 1);
    }
  }

  lemma {:induction false} AndDouble(x: nat, m: nat)
    ensures And(x, 2 * m) == 2 * And(x / 2, m)
  {
    assert (2 * m) % 2 == 0 && (2 * m) / 2 == m;
  }

  /** Masking clears the low bits. */
  lemma {:induction false} AndHigh(x: nat, prefix: nat, k: nat)
    requires x < Pow2(prefix + k)
    ensures And(x, HighBits(prefix, k)) == Base(x, Pow2(k))
  {
    if k == 0 {
      AndOnes(x, prefix);
      assert x / 1 == x;
    } else {
      AndDouble(x, HighBits(prefix, k - 1));
      AndHigh(x / 2, prefix, k - 1);
      HalfDiv(x, Pow2(k - 1));
    }
  }

  lemma {:induction false} HalfDiv(x: nat, p: nat)
    requires p > 0
    ensures x / (2 * p) * (2 * p) == 2 * (x / 2 / p * p)
  {
    var h := x / 2;
    var q, r := h / p, h % p;
    assert h == q * p + r;
    assert x == q * (2 * p) + (2 * r + x % 2) by { assert q * (2 * p) == 2 * (q * p); }
    ModUnique(x, 2 * p, q, 2 * r + x % 2);
    assert q * (2 * p) == 2 * (q * p);
  }

  /** The first address of the block that an address lies in. */
  function Base(network: nat, size: nat): nat
    requires size > 0
  {
    network / size * size
  }

  /** Shift and mask is membership in the interval of 2^(width - prefix) addresses from the network's base. */
  lemma {:induction false} ContainsIsInterval(network: nat, ip: nat, prefix: nat, width: nat)
    requires 1 <= prefix <= width && network < Pow2(width) && ip < Pow2(width)
    ensures var size := Pow2(width - prefix);
      Contains(network, ip, prefix, width) <==> Base(network, size) <= ip < Base(network, size) + size
  {
    var k := width - prefix;
    MaskIs(prefix, width);
    AndHigh(network, prefix, k);
    AndHigh(ip, prefix, k);
    SameBlock(network, ip, Pow2(k));
  }

  lemma {:induction false} SameBlock(a: nat, b: nat, size: nat)
    requires size > 0
    ensures a / size * size == b / size * size <==> a / size * size <= b < a / size * size + size
  {
    var base := a / size * size;
    if base <= b < base + size {
      ModUnique(b, size, a / size, b - base);
    }
    assert b == b / size * size + b % size;
  }

  // ---------------------------------------------------------------- addresses

  datatype Address = V4(bits: nat) | V6(bits: nat)

  predicate Valid(a: Address) { a.bits < Pow2(if a.V4? then 32 else 128) }

  datatype Range = Range(network: Address, prefix: nat)

  predicate InRange(r: Range, ip: Address)
    requires r.prefix <= (if r.network.V4? then 32 else 128)
  {
    match (r.network, ip)
    case (V4(n), V4(i)) => Contains(n, i, r.prefix, 32)
    case (V6(n), V6(i)) => Contains(n, i, r.prefix, 128)
    case _ => false
  }

  const HALF: nat := 0x1_0000_0000

  /** `to_ipv4`: the IPv4-compatible and IPv4-mapped forms. */
  function Unwrapped(a: Address): Address {
    if a.V6? && (a.bits / HALF == 0 || a.bits / HALF == 0xFFFF) then V4(a.bits % HALF) else a
  }

  const METADATA_V4: nat := 0xA9FE_A9FE
  const METADATA_V6: nat := 0xFD20_00CE_0000_0000_0000_0000_0000_0254
  const LINK_LOCAL_V4: Range := Range(V4(0xA9FE_0000), 16)
  const LINK_LOCAL_V6: Range := Range(V6(0xFE80_0000_0000_0000_0000_0000_0000_0000), 10)

  predicate IsInfrastructure(a: Address) {
    var ip := Unwrapped(a);
    ip == V4(METADATA_V4) || ip == V6(METADATA_V6) || InRange(LINK_LOCAL_V4, ip) || InRange(LINK_LOCAL_V6, ip)
  }

  /** The same IPv4 address in any of its spellings gets the same answer. */
  lemma {:induction false} SpellingsAgree(v4: nat)
    requires v4 < HALF
    ensures IsInfrastructure(V6(v4)) == IsInfrastructure(V4(v4))
    ensures IsInfrastructure(V6(0xFFFF * HALF + v4)) == IsInfrastructure(V4(v4))
  {
    ModUnique(v4, HALF, 0, v4);
    ModUnique(0xFFFF * HALF + v4, HALF, 0xFFFF, v4);
    assert Unwrapped(V6(v4)) == V4(v4) == Unwrapped(V4(v4)) == Unwrapped(V6(0xFFFF * HALF + v4));
  }

  lemma {:induction false} Powers()
    ensures Pow2(16) == 0x1_0000 && Pow2(32) == 0x1_0000_0000 && Pow2(118) == 0x40_0000_0000_0000_0000_0000_0000_0000
    ensures Pow2(128) == 0x1_0000_0000_0000_0000_0000_0000_0000_0000
  {
    assert Pow2(8) == 256;
    PowSum(8, 8);
    PowSum(16, 16);
    PowSum(32, 32);
    PowSum(64, 32);
    PowSum(96, 16);
    PowSum(112, 6);
    PowSum(118, 10);
    assert Pow2(6) == 64 && Pow2(10) == 1024;
  }

  /** IPv4: exactly 169.254.0.0 to 169.254.255.255, which holds the metadata address. */
  lemma {:induction false} InfrastructureV4(v4: nat)
    requires v4 < HALF
    ensures IsInfrastructure(V4(v4)) <==> 0xA9FE_0000 <= v4 <= 0xA9FE_FFFF
  {
    Powers();
    ContainsIsInterval(0xA9FE_0000, v4, 16, 32);
    ModUnique(0xA9FE_0000, 0x1_0000, 0xA9FE, 0);
  }

  /** IPv6 other than an embedded IPv4 address: fe80:: to febf:ffff:…, or the one metadata address. */
  lemma {:induction false} InfrastructureV6(v6: nat)
    requires Valid(V6(v6)) && v6 / HALF != 0 && v6 / HALF != 0xFFFF
    ensures IsInfrastructure(V6(v6)) <==>
      v6 == METADATA_V6
      || 0xFE80_0000_0000_0000_0000_0000_0000_0000 <= v6 <= 0xFEBF_FFFF_FFFF_FFFF_FFFF_FFFF_FFFF_FFFF
  {
    Powers();
    var network := 0xFE80_0000_0000_0000_0000_0000_0000_0000;
    ContainsIsInterval(network, v6, 10, 128);
    ModUnique(network, 0x40_0000_0000_0000_0000_0000_0000_0000, 0x3FA, 0);
  }
}
