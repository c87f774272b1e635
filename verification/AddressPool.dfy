/** Which mesh address a new peer gets: the lowest one of the tenant's prefix that nobody holds. */
module AddressPool {
  import opened Base
  import opened Netip
  import opened Bits

  const RESERVED_HOSTS := 2

  /** An address a peer may hold: past the network and relay addresses, below the IPv4 broadcast address. */
  predicate Allocatable(p: Prefix, a: Addr) {
    && a.V4? == p.addr.V4?
    && (a.V6? ==> a.zone == "")
    && p.Network() + RESERVED_HOSTS <= a.value < PoolEnd(p)
  }

  /** One past the highest address a peer may hold. */
  function PoolEnd(p: Prefix): int {
    p.Network() + p.Span() - (if p.addr.V4? then 1 else 0)
  }

  /** The only outcome the allocator may have. */
  ghost predicate IsLowestFree(p: Prefix, used: set<Addr>, r: Option<Addr>) {
    match r
    case Some(a) =>
      && Allocatable(p, a) && a !in used
      && forall b: Addr :: Allocatable(p, b) && b.value < a.value ==> b in used
    case None =>
      forall b: Addr :: Allocatable(p, b) ==> b in used
  }

  lemma LowestFreeUnique(p: Prefix, used: set<Addr>, r1: Option<Addr>, r2: Option<Addr>)
    requires IsLowestFree(p, used, r1) && IsLowestFree(p, used, r2)
    ensures r1 == r2
  {
  }

  /** The search from value v up, everything below having been tried. */
  function SearchFrom(p: Prefix, used: set<Addr>, v: nat): (r: Option<Addr>)
    requires p.Network() + RESERVED_HOSTS <= v
    requires forall b: Addr :: Allocatable(p, b) && b.value < v ==> b in used
    ensures IsLowestFree(p, used, r)
    decreases PoolEnd(p) - v
  {
    if v >= PoolEnd(p) then None
    else
      SpanFits(p);
      var a: Addr := p.addr.(value := v);
      if a in used then SearchFrom(p, used, v + 1) else Some(a)
  }

  function LowestFree(p: Prefix, used: set<Addr>): (r: Option<Addr>)
    ensures IsLowestFree(p, used, r)
  {
    SearchFrom(p, used, p.Network() + RESERVED_HOSTS)
  }

  /** How many peers the prefix has room for. */
  function Capacity(p: Prefix): nat {
    if PoolEnd(p) <= p.Network() + RESERVED_HOSTS then 0 else PoolEnd(p) - p.Network() - RESERVED_HOSTS
  }

  /** The n-th address handed out, counting from 0. */
  function Nth(p: Prefix, n: nat): Addr
    requires n < Capacity(p)
  {
    SpanFits(p);
    p.addr.(value := p.Network() + RESERVED_HOSTS + n)
  }

  /** With the first m addresses taken and no other, the next one is chosen, unless the pool is full. */
  lemma LowestFreeOfBlock(p: Prefix, used: set<Addr>, m: nat)
    requires m <= Capacity(p)
    requires forall i :: 0 <= i < m ==> Nth(p, i) in used
    requires forall a :: a in used ==> exists i :: 0 <= i < m && a == Nth(p, i)
    ensures LowestFree(p, used) == if m < Capacity(p) then Some(Nth(p, m)) else None
  {
    forall b: Addr | Allocatable(p, b) ensures b in used <==> b.value < p.Network() + RESERVED_HOSTS + m {
      var i := b.value - p.Network() - RESERVED_HOSTS;
      assert b == Nth(p, i);
      if i < m {
        assert Nth(p, i) in used;
      }
    }
    var r := if m < Capacity(p) then Some(Nth(p, m)) else None;
    assert IsLowestFree(p, used, r);
    LowestFreeUnique(p, used, r, LowestFree(p, used));
  }

  /** A private IPv4 prefix, as the API accepts it, has room for 2^(32-b) - 3 peers, so at least one. */
  lemma IPv4Capacity(p: Prefix)
    requires p.addr.V4? && p.bits <= 30
    ensures Capacity(p) == Pow2(32 - p.bits) - 3 >= 1
  {
    assert p.Span() == 2 * Pow2(32 - p.bits - 1) == 4 * Pow2(32 - p.bits - 2);
  }

  /** Address arithmetic stops at the top of the family's range. */
  function Next(a: Addr): Option<Addr> {
    if a.value + 1 == a.Limit() then None else Some(a.(value := a.value + 1))
  }

  lemma SpanFits(p: Prefix)
    ensures p.Network() + p.Span() <= p.addr.Limit()
  {
    var w := p.addr.Width();
    LimitIsPow2(p.addr);
    PowSum(p.bits, w - p.bits);
    LastBlockFits(p.addr.value, Pow2(w - p.bits), Pow2(p.bits));
  }

  lemma LastBlockFits(v: nat, m: nat, k: nat)
    requires m > 0 && v < k * m
    ensures v / m * m + m <= k * m
  {
    DivMul(v, m);
    MulLess(m, v / m, k);
    MulMonotone(m, v / m + 1, k);
  }

  lemma MulMonotone(m: nat, a: nat, b: nat)
    requires a <= b
    ensures a * m <= b * m
  {
  }

  lemma ContainsIsRange(p: Prefix, a: Addr)
    requires a.V4? == p.addr.V4? && (a.V6? ==> a.zone == "")
    ensures Contains(p, a) <==> p.Network() <= a.value < p.Network() + p.Span()
  {
    var m := p.Span();
    DivMul(p.addr.value, m);
    DivMul(a.value, m);
    if p.Network() <= a.value < p.Network() + m {
      DivUnique(a.value, m, p.addr.value / m);
    }
  }

  /** The bit of a byte that holds bit i of a slice. */
  function Mask(i: nat): bv8 {
    1 << (7 - i % 8)
  }

  lemma SetBit(s: seq<bv8>, i: nat, t: seq<bv8>)
    requires i < 8 * |s|
    requires t == s[i / 8 := s[i / 8] | Mask(i)]
    ensures Bit(t, i)
    ensures forall k :: 0 <= k < 8 * |s| && k != i ==> Bit(t, k) == Bit(s, k)
  {
    forall k | 0 <= k < 8 * |s| ensures Bit(t, k) == (k == i || Bit(s, k)) {
      if k / 8 == i / 8 {
        OrSets(s[i / 8], 7 - i % 8, 7 - k % 8);
      }
    }
  }

  lemma OrSets(b: bv8, j: nat, k: nat)
    requires j < 8 && k < 8
    ensures BitOf(b | (1 << j), k) == (j == k || BitOf(b, k))
  {
  }

  function NetworkSlice(p: Prefix): (s: seq<bv8>)
    ensures 8 * |s| == p.addr.Width()
  {
    AsSlice(p.Network(), p.addr.Width() / 8)
  }

  /** The first p.bits bits are the network's and those from there up to bit i are set. */
  ghost predicate Filled(p: Prefix, s: seq<bv8>, i: nat) {
    && 8 * |s| == p.addr.Width()
    && p.bits <= i <= 8 * |s|
    && Leading(s, i) == Leading(NetworkSlice(p), p.bits) * Pow2(i - p.bits) + Pow2(i - p.bits) - 1
  }

  lemma FilledStart(p: Prefix)
    ensures Filled(p, NetworkSlice(p), p.bits)
  {
  }

  lemma FillStep(p: Prefix, s: seq<bv8>, i: nat, t: seq<bv8>)
    requires Filled(p, s, i) && i < 8 * |s|
    requires t == s[i / 8 := s[i / 8] | Mask(i)]
    ensures Filled(p, t, i + 1)
  {
    SetBit(s, i, t);
    LeadingFrame(s, t, i);
    Double(Leading(NetworkSlice(p), p.bits), Pow2(i - p.bits));
  }

  /** Filling every host bit reaches the end of the span. */
  lemma FilledValue(p: Prefix, s: seq<bv8>)
    requires Filled(p, s, 8 * |s|)
    ensures FromSlice(s) == p.Network() + p.Span() - 1 < p.addr.Limit()
  {
    var orig := NetworkSlice(p);
    SpanFits(p);
    DivMul(p.addr.value, p.Span());
    LimitIsPow2(p.addr);
    SliceRoundTrip(p.Network(), |orig|);
    LeadingSplit(orig, p.bits, p.addr.Width());
    DivUnique(p.Network(), p.Span(), Leading(orig, p.bits));
  }

  method LastAddr(prefix: Prefix) returns (last: Addr)
    ensures last.V4? == prefix.addr.V4? && (last.V6? ==> last.zone == "")
    ensures last.value == prefix.Network() + prefix.Span() - 1
  {
    hide Filled, NetworkSlice, Pow2, Leading, Mask;
    var slice := NetworkSlice(prefix);
    FilledStart(prefix);
    var bytes := new bv8[|slice|](k requires 0 <= k < |slice| => slice[k]);
    assert bytes[..] == slice;
    var i := prefix.bits;
    while i < 8 * bytes.Length
      invariant prefix.bits <= i <= 8 * bytes.Length
      invariant Filled(prefix, bytes[..], i)
    {
      ghost var before := bytes[..];
      bytes[i / 8] := bytes[i / 8] | Mask(i);
      FillStep(prefix, before, i, bytes[..]);
      i := i + 1;
    }
    FilledValue(prefix, bytes[..]);
    last := prefix.addr.(value := FromSlice(bytes[..]));
  }

  method NextFreeAddr(prefix: Prefix, used: set<Addr>) returns (r: Option<Addr>)
    ensures IsLowestFree(prefix, used, r)
  {
    var masked := Masked(prefix);
    SpanFits(prefix);
    var addr: Option<Addr> := Some(masked.addr);
    for i := 0 to RESERVED_HOSTS
      invariant addr == if prefix.Network() + i < prefix.addr.Limit()
                        then Some(masked.addr.(value := prefix.Network() + i)) else None
    {
      addr := if addr.Some? then Next(addr.value) else None;
    }
    var last := LastAddr(masked);
    assert last.value == prefix.Network() + prefix.Span() - 1 by {
      assert masked.Network() == prefix.Network();
    }
    while addr.Some? && Contains(masked, addr.value)
      invariant addr.Some? ==>
        && addr.value.V4? == prefix.addr.V4? && (addr.value.V6? ==> addr.value.zone == "")
        && prefix.Network() + RESERVED_HOSTS <= addr.value.value
        && forall b: Addr :: Allocatable(prefix, b) && b.value < addr.value.value ==> b in used
      invariant addr.None? ==> forall b: Addr :: Allocatable(prefix, b) ==> b in used
      decreases if addr.Some? then prefix.addr.Limit() - addr.value.value else 0
    {
      ContainsIsRange(masked, addr.value);
      if addr.value.V4? && addr.value == last {
        break;
      }
      if addr.value !in used {
        return addr;
      }
      if addr.value == last {
        break;
      }
      addr := Next(addr.value);
    }
    if addr.Some? {
      ContainsIsRange(masked, addr.value);
    }
    r := None;
  }
}
