/** Addresses, prefixes and the big-endian byte form the control plane computes on.
    Text forms are not modelled: an address is its family, its numeric value and, for IPv6, its zone. */
module Netip {
  import opened Bits

  function Pow2(n: nat): (r: nat)
    ensures r >= 1
  {
    if n == 0 then 1 else 2 * Pow2(n - 1)
  }

  datatype RawAddr = V4(value: nat) | V6(value: nat, zone: string) {
    function Width(): nat {
      if V4? then 32 else 128
    }

    function Limit(): nat {
      if V4? then 0x1_0000_0000 else 0x1_0000_0000_0000_0000_0000_0000_0000_0000
    }
  }

  type Addr = a: RawAddr | a.value < a.Limit() witness V4(0)

  /** The value of an IPv4 address. */
  type IPv4 = v: nat | v < 0x1_0000_0000

  lemma LimitIsPow2(a: RawAddr)
    ensures a.Limit() == Pow2(a.Width()) && Pow2(32) == 0x1_0000_0000
  {
    hide Pow2;
    Pow2Of32();
    Pow2Of128();
  }

  lemma Pow2Of32()
    ensures Pow2(32) == 0x1_0000_0000
  {
    assert Pow2(0) == 1;
    hide Pow2;
    Pow2Word(0);
  }

  lemma Pow2Of128()
    ensures Pow2(128) == 0x1_0000_0000_0000_0000_0000_0000_0000_0000
  {
    hide Pow2;
    Pow2Of32();
    Pow2Word(32);
    Pow2Word(64);
    Pow2Word(96);
  }

  lemma Pow2Word(n: nat)
    ensures Pow2(n + 32) == 0x1_0000_0000 * Pow2(n)
  {
    hide Pow2;
    Pow2Byte(n);
    Pow2Byte(n + 8);
    Pow2Byte(n + 16);
    Pow2Byte(n + 24);
  }

  lemma {:induction false} PowSum(a: nat, b: nat)
    ensures Pow2(a + b) == Pow2(a) * Pow2(b)
  {
    if a > 0 {
      PowSum(a - 1, b);
      assert 2 * Pow2(a - 1) * Pow2(b) == 2 * (Pow2(a - 1) * Pow2(b));
    }
  }

  /** An AddrPort whose zero value is Unset: `IsValid` in the source is `At?` here. */
  datatype AddrPort = Unset | At(addr: Addr, port: nat)

  /** Where a peer is reached: at an address, or by its mesh address through the relay. */
  datatype Target = Direct(addr: AddrPort) | Via(meshIP: IPv4)

  /** An IPv4 address carried in the low half of ::ffff:0:0/96. */
  predicate Is4In6(a: Addr) {
    a.V6? && a.value / 0x1_0000_0000 == 0xffff
  }

  function Unmap(a: Addr): Addr {
    if Is4In6(a) then V4(a.value % 0x1_0000_0000) else a
  }

  /** v rounded down to a multiple of m. */
  function Floor(v: nat, m: nat): (r: nat)
    requires m > 0
    ensures r <= v < r + m
  {
    DivMul(v, m);
    v / m * m
  }

  datatype RawPrefix = Prefix(addr: Addr, bits: nat) {
    /** How many addresses the prefix spans. */
    function Span(): nat
      requires bits <= addr.Width()
    {
      Pow2(addr.Width() - bits)
    }

    /** The numeric value of the address with its host bits cleared. */
    function Network(): nat
      requires bits <= addr.Width()
    {
      Floor(addr.value, Span())
    }
  }

  /** Prefixes never carry a zone. */
  type Prefix = p: RawPrefix | p.bits <= p.addr.Width() && (p.addr.V6? ==> p.addr.zone == "")
    witness Prefix(V4(0), 0)

  function Masked(p: Prefix): (q: Prefix)
    ensures q.bits == p.bits && q.addr.V4? == p.addr.V4?
    ensures q.addr.value == q.Network() == p.Network() <= p.addr.value
  {
    DivMul(p.addr.value, p.Span());
    Prefix(p.addr.(value := p.Network()), p.bits)
  }

  predicate Contains(p: Prefix, a: Addr) {
    && a.V4? == p.addr.V4?
    && (a.V6? ==> a.zone == "")
    && a.value / p.Span() == p.addr.value / p.Span()
  }

  lemma DivMul(v: nat, m: nat)
    requires m > 0
    ensures v / m * m <= v < v / m * m + m
    ensures (v / m * m) / m == v / m
  {
    DivUnique(v / m * m, m, v / m);
  }

  lemma DivUnique(v: nat, m: nat, q: nat)
    requires m > 0 && q * m <= v < q * m + m
    ensures v / m == q
  {
    var d := v / m;
    MulLess(m, q, d + 1);
    MulLess(m, d, q + 1);
  }

  lemma MulLess(m: nat, a: int, b: int)
    requires a * m < b * m
    ensures a < b
  {
  }

  lemma Double(a: int, m: int)
    ensures a * (2 * m) == 2 * (a * m)
  {
  }

  // ---- bytes, most significant first ----

  type byte = x: int | 0 <= x < 256 witness 0

  /** Bit i of s, counting from the most significant bit of s[0]. */
  predicate Bit(s: seq<bv8>, i: nat)
    requires i < 8 * |s|
  {
    BitOf(s[i / 8], 7 - i % 8)
  }

  /** The number written by the first i bits of s. */
  function Leading(s: seq<bv8>, i: nat): nat
    requires i <= 8 * |s|
  {
    if i == 0 then 0 else 2 * Leading(s, i - 1) + (if Bit(s, i - 1) then 1 else 0)
  }

  function FromSlice(s: seq<bv8>): nat {
    Leading(s, 8 * |s|)
  }

  /** v in n bytes, most significant first. */
  function BigEndian(v: nat, n: nat): (s: seq<byte>)
    ensures |s| == n
  {
    if n == 0 then [] else BigEndian(v / 256, n - 1) + [v % 256]
  }

  /** The same bytes as the bits they are made of. */
  function AsSlice(v: nat, n: nat): (s: seq<bv8>)
    ensures |s| == n
  {
    var bytes := BigEndian(v, n);
    seq(n, i requires 0 <= i < n => Octet(bytes[i]))
  }

  lemma AsSliceStep(v: nat, n: nat)
    requires n > 0
    ensures AsSlice(v, n) == AsSlice(v / 256, n - 1) + [Octet(v % 256)]
  {
    hide Octet;
    assert BigEndian(v, n) == BigEndian(v / 256, n - 1) + [v % 256];
  }

  /** The next bit of byte j doubles what precedes it. */
  lemma LeadingStep(s: seq<bv8>, j: nat, k: nat)
    requires j < |s| && k < 8
    ensures Leading(s, 8 * j + k + 1) == 2 * Leading(s, 8 * j + k) + Weight(BitOf(s[j], 7 - k), 1)
  {
    assert (8 * j + k) / 8 == j && (8 * j + k) % 8 == k;
  }

  lemma LeadingHalf(s: seq<bv8>, j: nat, k: nat)
    requires j < |s| && (k == 0 || k == 4)
    ensures Leading(s, 8 * j + k + 4) == 16 * Leading(s, 8 * j + k) + Nibble(s[j], 7 - k)
  {
    LeadingStep(s, j, k);
    LeadingStep(s, j, k + 1);
    LeadingStep(s, j, k + 2);
    LeadingStep(s, j, k + 3);
  }

  /** Eight more leading bits append one base-256 digit. */
  lemma LeadingByte(s: seq<bv8>, j: nat, b: bv8)
    requires j < |s| && b == s[j]
    ensures Leading(s, 8 * j + 8) == 256 * Leading(s, 8 * j) + 16 * Nibble(b, 7) + Nibble(b, 3)
  {
    hide Nibble, BitOf, Leading;
    LeadingHalf(s, j, 0);
    LeadingHalf(s, j, 4);
  }

  /** Leading looks only at the bits it counts. */
  lemma {:induction false} LeadingFrame(s: seq<bv8>, t: seq<bv8>, i: nat)
    requires i <= 8 * |s| && i <= 8 * |t|
    requires forall k :: 0 <= k < i ==> Bit(s, k) == Bit(t, k)
    ensures Leading(s, i) == Leading(t, i)
  {
    if i > 0 {
      LeadingFrame(s, t, i - 1);
    }
  }

  /** Writing a number into bytes and reading it back. */
  lemma {:induction false} SliceRoundTrip(v: nat, n: nat)
    requires v < Pow2(8 * n)
    ensures FromSlice(AsSlice(v, n)) == v
  {
    if n > 0 {
      Pow2Byte(8 * n - 8);
      SliceRoundTrip(v / 256, n - 1);
      AsSliceStep(v, n);
      LeadingAppend(AsSlice(v / 256, n - 1), v % 256);
    }
  }

  lemma LeadingAppend(t: seq<bv8>, x: byte)
    ensures FromSlice(t + [Octet(x)]) == 256 * FromSlice(t) + x
  {
    var s := t + [Octet(x)];
    LeadingByte(s, |t|, Octet(x));
    ByteBits(Octet(x));
    forall k | 0 <= k < 8 * |t| ensures Bit(s, k) == Bit(t, k) {
      assert s[k / 8] == t[k / 8];
    }
    LeadingFrame(s, t, 8 * |t|);
  }

  lemma Pow2Byte(n: nat)
    ensures Pow2(n + 8) == 256 * Pow2(n)
  {
    assert Pow2(n + 8) == 4 * Pow2(n + 6);
    assert Pow2(n + 6) == 4 * Pow2(n + 4);
    assert Pow2(n + 4) == 4 * Pow2(n + 2);
  }

  lemma {:induction false} LeadingBound(s: seq<bv8>, i: nat)
    requires i <= 8 * |s|
    ensures Leading(s, i) < Pow2(i)
  {
    if i > 0 {
      LeadingBound(s, i - 1);
    }
  }

  /** The first b of w bits are the number divided by 2^(w-b). */
  lemma {:induction false} LeadingSplit(s: seq<bv8>, b: nat, w: nat)
    requires b <= w <= 8 * |s|
    ensures Leading(s, b) * Pow2(w - b) <= Leading(s, w) < Leading(s, b) * Pow2(w - b) + Pow2(w - b)
  {
    if b < w {
      LeadingSplit(s, b, w - 1);
      Double(Leading(s, b), Pow2(w - 1 - b));
    }
  }
}
