/** The bits of one byte and its numeric value. */
module Bits {
  lemma Successor(b: bv8)
    requires b as int < 255
    ensures (b + 1) as int == b as int + 1
  {
    assert b < 255;
  }

  /** The byte that writes x. */
  function Octet(x: nat): (b: bv8)
    requires x < 256
    ensures b as int == x
  {
    if x == 0 then 0 else
      Successor(Octet(x - 1));
      Octet(x - 1) + 1
  }

  /** Bit k of b, the least significant one being bit 0. */
  predicate BitOf(b: bv8, k: nat)
    requires k < 8
  {
    (b >> k) & 1 == 1
  }

  function Weight(b: bool, w: nat): nat {
    if b then w else 0
  }

  /** The number half a byte writes, its highest bit being bit k. */
  function Nibble(b: bv8, k: nat): nat
    requires 3 <= k < 8
  {
    Weight(BitOf(b, k), 8) + Weight(BitOf(b, k - 1), 4) + Weight(BitOf(b, k - 2), 2) + Weight(BitOf(b, k - 3), 1)
  }

  /** What is left of b above its k lowest bits. */
  function Shifted(b: bv8, k: nat): nat
    requires k <= 8
  {
    (b >> k) as int
  }

  lemma HalfOf(b: bv8)
    ensures b as int == 2 * ((b >> 1) as int) + (if b & 1 == 1 then 1 else 0)
  {
  }

  lemma Half(b: bv8, k: nat)
    requires k < 8
    ensures Shifted(b, k) == 2 * Shifted(b, k + 1) + Weight(BitOf(b, k), 1)
  {
    HalfOf(b >> k);
    assert (b >> k) >> 1 == b >> (k + 1);
  }

  lemma NibbleShift(b: bv8, k: nat)
    requires 3 <= k < 8
    ensures Shifted(b, k - 3) == 16 * Shifted(b, k + 1) + Nibble(b, k)
  {
    Half(b, k);
    Half(b, k - 1);
    Half(b, k - 2);
    Half(b, k - 3);
  }

  lemma ShiftedEnds(b: bv8)
    ensures Shifted(b, 0) == b as int && Shifted(b, 8) == 0
  {
    assert b >> 0 == b && b >> 8 == 0;
  }

  lemma ByteBits(b: bv8)
    ensures b as int == 16 * Nibble(b, 7) + Nibble(b, 3)
  {
    ShiftedEnds(b);
    NibbleShift(b, 7);
    NibbleShift(b, 3);
  }
}
