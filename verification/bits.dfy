/** The bit-level helpers the driver uses on register values: the two
    xor idioms that set or clear one bit, the and-not clear, the
    little-endian 16-bit combine of a two-byte read, and the baseline
    scaling. */
module BitOps {

  /** Bit n of a register byte. */
  predicate Bit(x: bv8, n: nat)
    requires n < 8
  {
    x & (1 << n) != 0
  }

  /** Bit n of a 16-bit word. */
  predicate Bit16(w: bv16, n: nat)
    requires n < 16
  {
    w & (1 << n) != 0
  }

  /** Or-ing in the mask of bit n sets bit n and keeps the others. */
  lemma OrMaskBit(x: bv8, n: nat, i: nat)
    requires n < 8 && i < 8
    ensures Bit(x | (1 << n), i) == (i == n || Bit(x, i))
  {
  }

  /** And-ing with the complement of bit n's mask clears bit n and keeps
      the others. */
  lemma AndNotMaskBit(x: bv8, n: nat, i: nat)
    requires n < 8 && i < 8
    ensures Bit(x & !(1 << n), i) == (i != n && Bit(x, i))
  {
  }

  /** `x ^= (-1 ^ x) & (1 << n)`: in the source -1 is all ones, and only
      bit n survives the mask, so storing the result back in a byte gives
      x with bit n set and every other bit kept. */
  function SetBitIdiom(x: bv8, n: nat): (r: bv8)
    requires n < 8
    ensures r == x | (1 << n)
    ensures forall i | 0 <= i < 8 :: Bit(r, i) == (i == n || Bit(x, i))
  {
    forall i | 0 <= i < 8
      ensures Bit(x | (1 << n), i) == (i == n || Bit(x, i))
    {
      OrMaskBit(x, n, i);
    }
    x ^ ((0xFF ^ x) & (1 << n))
  }

  /** `x ^= (-0 ^ x) & (1 << n)`: -0 is 0, so the mask picks bit n of x and
      the xor clears it, keeping every other bit. */
  function ClearBitIdiom(x: bv8, n: nat): (r: bv8)
    requires n < 8
    ensures r == x & !(1 << n)
    ensures forall i | 0 <= i < 8 :: Bit(r, i) == (i != n && Bit(x, i))
  {
    forall i | 0 <= i < 8
      ensures Bit(x & !(1 << n), i) == (i != n && Bit(x, i))
    {
      AndNotMaskBit(x, n, i);
    }
    x ^ ((0 ^ x) & (1 << n))
  }

  /** `x &= ~(1 << n)`, the pull-down's way of clearing bit n; it agrees
      with the xor idiom. */
  function ClearBitMask(x: bv8, n: nat): (r: bv8)
    requires n < 8
    ensures r == ClearBitIdiom(x, n)
    ensures forall i | 0 <= i < 8 :: Bit(r, i) == (i != n && Bit(x, i))
  {
    x & !(1 << n)
  }

  /** `(x >> n) & 1`, the shift-and-mask way of reading bit n, as a
      truth value: it agrees with the mask test. */
  function ShiftedBit(x: bv8, n: nat): (b: bool)
    requires n < 8
    ensures b == Bit(x, n)
  {
    (x >> n) & 1 == 1
  }

  /** The value of a two-byte read: the byte read first is the low half. */
  function Combine16(lo: bv8, hi: bv8): (w: bv16)
    ensures LowByte(w) == lo && HighByte(w) == hi
  {
    (lo as bv16) | ((hi as bv16) << 8)
  }

  function LowByte(w: bv16): bv8 {
    (w & 0xFF) as bv8
  }

  function HighByte(w: bv16): bv8 {
    (w >> 8) as bv8
  }

  /** Every 16-bit word is the combine of its own two bytes, so Combine16 is
      a bijection between byte pairs and words. */
  lemma Combine16Split(w: bv16)
    ensures Combine16(LowByte(w), HighByte(w)) == w
  {
  }

  /** The baseline register holds the baseline at a quarter of the
      filtered-data resolution; the reported value is the byte shifted left
      by two in a 16-bit result, which never overflows. */
  function BaselineScale(b: bv8): (r: bv16)
    ensures r as int == 4 * b as int
    ensures r <= 0x3FC && r & 3 == 0
  {
    (b as bv16) << 2
  }
}
