/** Integer models of the bitwise operators the driver applies to register
  * values. A register value is a non-negative integer; bit k of x is
  * `BitOf(x, k)`, and an operator such as `(current & ~mask) | (value & mask)`
  * is written out digit by digit on the binary expansion. */
module Bits {

  type byte = x: int | 0 <= x < 0x100
  type u16 = x: int | 0 <= x < 0x1_0000

  function Pow2(k: nat): (r: nat)
    ensures r >= 1
  {
    if k == 0 then 1 else 2 * Pow2(k - 1)
  }

  lemma Pow2Values()
    ensures Pow2(4) == 0x10 && Pow2(8) == 0x100 && Pow2(16) == 0x1_0000
  {
    assert Pow2(8) == 0x100;
    assert Pow2(12) == 0x1000 by {
      assert Pow2(9) == 2 * Pow2(8) && Pow2(10) == 2 * Pow2(9);
      assert Pow2(11) == 2 * Pow2(10) && Pow2(12) == 2 * Pow2(11);
    }
    assert Pow2(13) == 2 * Pow2(12) && Pow2(14) == 2 * Pow2(13);
    assert Pow2(15) == 2 * Pow2(14) && Pow2(16) == 2 * Pow2(15);
  }

  /** Bit k of x, that is `(x >> k) & 1`. */
  function BitOf(x: nat, k: nat): (r: nat)
    ensures r < 2
  {
    if k == 0 then x % 2 else BitOf(x / 2, k - 1)
  }

  /** The low n bits of `(o & ~m) | (v & m)`: the bits of v where the mask m
    * is set and the bits of o where it is clear. */
  function Merge(o: nat, v: nat, m: nat, n: nat): (r: nat)
    ensures r < Pow2(n)
  {
    if n == 0 then 0
    else 2 * Merge(o / 2, v / 2, m / 2, n - 1) + (if m % 2 == 1 then v % 2 else o % 2)
  }

  /** `(current & ~mask) | (value & mask)` on one byte. */
  function MaskedByte(current: byte, value: byte, mask: byte): (r: byte)
  {
    Merge(current, value, mask, 8)
  }

  /** `x | (1 << j)`. */
  function WithBit(x: nat, j: nat): nat
  {
    if BitOf(x, j) == 1 then x else x + Pow2(j)
  }

  /** Byte i of a reply, where reading past the end of a short reply gives
    * `undefined`, which every bitwise operator of the source treats as 0. */
  function ByteAt(s: seq<byte>, i: nat): byte
  {
    if i < |s| then s[i] else 0
  }

  /** Each bit of a merged value comes from `v` where the mask is set and
    * from `o` where it is clear. */
  lemma {:induction false} MergeBit(o: nat, v: nat, m: nat, n: nat, k: nat)
    requires k < n
    ensures BitOf(Merge(o, v, m, n), k) == if BitOf(m, k) == 1 then BitOf(v, k) else BitOf(o, k)
  {
    if k > 0 {
      MergeBit(o / 2, v / 2, m / 2, n - 1, k - 1);
    }
  }

  lemma DivModUnique(x: int, d: int, q: int, r: int)
    requires d > 0 && 0 <= r < d && x == q * d + r
    ensures x / d == q && x % d == r
  {
    var q', r' := x / d, x % d;
    assert x == q' * d + r';
    assert (q - q') * d == r' - r;
    if q > q' {
      MulAtLeast(q - q', d);
    } else if q < q' {
      MulAtLeast(q' - q, d);
    }
  }

  lemma {:induction false} MulAtLeast(a: int, d: int)
    requires a >= 1 && d > 0
    ensures a * d >= d
    decreases a
  {
    if a > 1 {
      MulAtLeast(a - 1, d);
      assert a * d == (a - 1) * d + d;
    }
  }

  /** The bits of hi * 2^n + lo are those of lo below n and those of hi from n up. */
  lemma {:induction false} BitOfConcat(hi: nat, lo: nat, n: nat, k: nat)
    requires lo < Pow2(n)
    ensures BitOf(hi * Pow2(n) + lo, k) == if k < n then BitOf(lo, k) else BitOf(hi, k - n)
  {
    if n > 0 {
      var p := Pow2(n - 1);
      assert hi * Pow2(n) + lo == (hi * p + lo / 2) * 2 + lo % 2;
      DivModUnique(hi * Pow2(n) + lo, 2, hi * p + lo / 2, lo % 2);
      if k > 0 {
        BitOfConcat(hi, lo / 2, n - 1, k - 1);
      }
    }
  }

  /** The low n bits of v. */
  function Low(v: nat, n: nat): nat
  {
    if n == 0 then 0 else 2 * Low(v / 2, n - 1) + v % 2
  }

  lemma {:induction false} LowOfSmall(v: nat, n: nat)
    requires v < Pow2(n)
    ensures Low(v, n) == v
  {
    if n > 0 {
      LowOfSmall(v / 2, n - 1);
    }
  }

  /** A mask with all n bits set writes the low n bits of the new value. */
  lemma {:induction false} MergeAllOnes(o: nat, v: nat, n: nat)
    ensures Merge(o, v, Pow2(n) - 1, n) == Low(v, n)
  {
    if n > 0 {
      var m := Pow2(n) - 1;
      assert m % 2 == 1 && m / 2 == Pow2(n - 1) - 1;
      MergeAllOnes(o / 2, v / 2, n - 1);
    }
  }

  lemma FullMaskWrites(current: byte, value: byte)
    ensures MaskedByte(current, value, 0xff) == value
  {
    assert Pow2(8) == 0x100;
    MergeAllOnes(current, value, 8);
    LowOfSmall(value, 8);
  }

  /** Setting a clear bit of a value below 2^n keeps it below 2^n. */
  lemma {:induction false} SetBitBound(x: nat, j: nat, n: nat)
    requires j < n && x < Pow2(n) && BitOf(x, j) == 0
    ensures x + Pow2(j) < Pow2(n)
  {
    var h := Pow2(n - 1);
    assert Pow2(n) == 2 * h;
    assert x == 2 * (x / 2) + x % 2;
    if j > 0 {
      assert x / 2 < h;
      SetBitBound(x / 2, j - 1, n - 1);
      assert Pow2(j) == 2 * Pow2(j - 1);
    } else {
      assert x % 2 == 0;
    }
  }

  /** Adding 2^j to a value whose bit j is clear sets that bit and no other. */
  lemma {:induction false} SetBitBits(x: nat, j: nat, k: nat)
    requires BitOf(x, j) == 0
    ensures BitOf(x + Pow2(j), k) == if k == j then 1 else BitOf(x, k)
  {
    if j == 0 {
      if k > 0 {
        assert (x + 1) / 2 == x / 2;
      }
    } else {
      assert (x + Pow2(j)) / 2 == x / 2 + Pow2(j - 1);
      if k > 0 {
        SetBitBits(x / 2, j - 1, k - 1);
      }
    }
  }

  /** `x | (1 << j)` has bit j set and every other bit of x. */
  lemma WithBitBits(x: nat, j: nat, k: nat)
    ensures BitOf(WithBit(x, j), k) == if k == j then 1 else BitOf(x, k)
  {
    if BitOf(x, j) == 0 {
      SetBitBits(x, j, k);
    }
  }

  lemma WithBitBound(x: nat, j: nat, n: nat)
    requires j < n && x < Pow2(n)
    ensures WithBit(x, j) < Pow2(n)
  {
    if BitOf(x, j) == 0 {
      SetBitBound(x, j, n);
    }
  }
}
