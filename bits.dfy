/** Bit arithmetic behind device bitfields and address-space sizes: powers of two,
    maxNBitValue (the all-ones value of n bits), the bits of a natural number, and
    the truncation a static_cast to a 32-bit unsigned type performs. */
module Bits {

  const Two32: nat := 0x1_0000_0000
  const Two64: nat := 0x1_0000_0000_0000_0000

  function Pow2(n: nat): (r: nat)
    ensures r >= 1
  {
    if n == 0 then 1 else 2 * Pow2(n - 1)
  }

  /** maxNBitValue(n): the value whose n low bits are set and nothing else. */
  function MaxNBitValue(n: nat): (r: nat)
    ensures r + 1 == Pow2(n)
    ensures n == 0 ==> r == 0
    ensures r < Pow2(n)
  {
    Pow2(n) - 1
  }

  /** Bit i of x, bit 0 being the least significant. */
  function Bit(x: nat, i: nat): (r: bool)
  {
    if i == 0 then x % 2 == 1 else Bit(x / 2, i - 1)
  }

  /** A value cast to a 32-bit unsigned integer keeps its low 32 bits. */
  function Truncate32(x: nat): (r: nat)
    ensures r < Two32
    ensures x < Two32 ==> r == x
  {
    x % Two32
  }

  function Min(a: nat, b: nat): (r: nat)
    ensures r <= a && r <= b
    ensures r == a || r == b
  {
    if a <= b then a else b
  }

  lemma {:induction false} ZeroHasNoBits(i: nat)
    ensures !Bit(0, i)
  {
    if i > 0 {
      ZeroHasNoBits(i - 1);
    }
  }

  /** Exactly the low n bits of maxNBitValue(n) are set. */
  lemma {:induction false} MaxNBitValueBits(n: nat, i: nat)
    ensures Bit(MaxNBitValue(n), i) <==> i < n
  {
    if n == 0 {
      ZeroHasNoBits(i);
    } else {
      assert MaxNBitValue(n) == 2 * MaxNBitValue(n - 1) + 1;
      if i > 0 {
        assert MaxNBitValue(n) / 2 == MaxNBitValue(n - 1);
        MaxNBitValueBits(n - 1, i - 1);
      }
    }
  }

  lemma {:induction false} Pow2Monotone(m: nat, n: nat)
    requires m <= n
    ensures Pow2(m) <= Pow2(n)
  {
    if m < n {
      Pow2Monotone(m, n - 1);
    }
  }

  lemma {:induction false} Pow2Add(m: nat, n: nat)
    ensures Pow2(m + n) == Pow2(m) * Pow2(n)
  {
    if n > 0 {
      Pow2Add(m, n - 1);
      assert Pow2(m + n) == 2 * Pow2(m + n - 1);
    }
  }

  lemma Pow2Of32()
    ensures Pow2(32) == Two32
  {
    assert Pow2(4) == 16;
    Pow2Add(4, 4);
    Pow2Add(8, 8);
    Pow2Add(16, 16);
  }

  /** Casting maxNBitValue(n) to 32 bits keeps at most 32 set bits: it is
      maxNBitValue(min(n, 32)). */
  lemma TruncatedMaxNBitValue(n: nat)
    ensures Truncate32(MaxNBitValue(n)) == MaxNBitValue(Min(n, 32))
  {
    Pow2Of32();
    if n <= 32 {
      Pow2Monotone(n, 32);
    } else {
      Pow2Add(32, n - 32);
      var q := Pow2(n - 32);
      assert MaxNBitValue(n) == Two32 * (q - 1) + (Two32 - 1);
    }
  }

  /** For every bit position a 32-bit value has, bit i of the truncated mask is set
      exactly when i < n. */
  lemma TruncatedMaskBits(n: nat)
    ensures forall i :: 0 <= i < 32 ==> (Bit(Truncate32(MaxNBitValue(n)), i) <==> i < n)
  {
    TruncatedMaxNBitValue(n);
    forall i | 0 <= i < 32
      ensures Bit(Truncate32(MaxNBitValue(n)), i) <==> i < n
    {
      MaxNBitValueBits(Min(n, 32), i);
    }
  }
}
