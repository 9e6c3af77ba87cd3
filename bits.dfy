/**
 * Bit patterns held in a 16-bit `int`, as the firmware stores its
 * sequences.  A pattern is its unsigned 16-bit value; bit 15 is the sign
 * bit of the C `int`.
 */
module Bits {
  import opened Resources

  const WORD: nat := 0x1_0000

  function Pow2(i: nat): (r: nat)
    ensures 1 <= r
  {
    if i == 0 then 1 else 2 * Pow2(i - 1)
  }

  lemma Pow2Values()
    ensures Pow2(8) == 256 && Pow2(15) == 0x8000 && Pow2(16) == WORD
  {
  }

  /** Truncation of an integer to C's `unsigned int` (16 bits on the AVR). */
  function Wrap16(x: int): (r: uint16)
    ensures r % WORD == x % WORD
    ensures 0 <= x < WORD ==> r == x
  {
    x % WORD
  }

  /** Truncation of an integer to `uint8_t`. */
  function Byte(x: int): (r: uint8)
    ensures r % 256 == x % 256
    ensures 0 <= x < 256 ==> r == x
  {
    x % 256
  }

  /** Bit i of the pattern s. */
  predicate Bit(s: nat, i: nat) {
    if i == 0 then s % 2 == 1 else Bit(s / 2, i - 1)
  }

  /** `(s >> i) & 1` on a signed 16-bit `int`: an arithmetic shift, so
      positions past bit 15 repeat the sign bit. */
  predicate SignedBit(s: uint16, i: nat) {
    Bit(s, if i < 16 then i else 15)
  }

  /** The pattern read as C's signed 16-bit `int`. */
  function Signed16(s: uint16): int {
    if s < 0x8000 then s else s - WORD
  }

  /** `s >> i & 0xFF` on a signed 16-bit `int`: the arithmetic shift is a
      division rounding down, and the mask keeps the low byte. */
  function ShiftRightByte(s: uint16, i: nat): uint8 {
    Signed16(s) / Pow2(i) % 256
  }

  /** Number of set bits below position w. */
  function PopCount(s: nat, w: nat): nat {
    if w == 0 then 0 else PopCount(s, w - 1) + (if Bit(s, w - 1) then 1 else 0)
  }

  /** `s | (1 << b)` on a 16-bit `int`.  A position outside [0, 16) adds
      nothing: the shift is undefined in C there, and no bit of a 16-bit
      value can receive it. */
  function SetBit(s: uint16, b: int): (r: uint16)
    ensures 0 <= b < 16 ==> Bit(r, b)
    ensures forall j: nat {:trigger Bit(r, j)} :: j != b ==> (Bit(r, j) <==> Bit(s, j))
  {
    if 0 <= b < 16 && !Bit(s, b) then
      Pow2Values();
      AddBitBelow(s, b, 16);
      forall j: nat ensures Bit(s + Pow2(b), j) <==> Bit(s, j) || j == b {
        AddBit(s, b, j);
      }
      s + Pow2(b)
    else
      s
  }

  /** Adding 2^b to a pattern whose bit b is clear sets exactly that bit. */
  lemma {:induction false} AddBit(s: nat, b: nat, j: nat)
    requires !Bit(s, b)
    ensures Bit(s + Pow2(b), j) <==> Bit(s, j) || j == b
  {
    if b == 0 {
      if j > 0 {
        assert (s + 1) / 2 == s / 2;
      }
    } else {
      assert (s + Pow2(b)) / 2 == s / 2 + Pow2(b - 1);
      assert (s + Pow2(b)) % 2 == s % 2;
      if j > 0 {
        AddBit(s / 2, b - 1, j - 1);
      }
    }
  }

  /** Setting a clear bit below position w keeps the pattern below 2^w. */
  lemma {:induction false} AddBitBelow(s: nat, b: nat, w: nat)
    requires s < Pow2(w) && b < w && !Bit(s, b)
    ensures s + Pow2(b) < Pow2(w)
  {
    if b == 0 {
      assert s % 2 == 0;
    } else {
      AddBitBelow(s / 2, b - 1, w - 1);
    }
  }

  /** A pattern below 2^w has no bit at or above w. */
  lemma {:induction false} NoBitAbove(s: nat, w: nat, j: nat)
    requires s < Pow2(w) && w <= j
    ensures !Bit(s, j)
  {
    if j == 0 {
    } else if w == 0 {
      NoBitAbove(s / 2, 0, j - 1);
    } else {
      NoBitAbove(s / 2, w - 1, j - 1);
    }
  }

  /** 2^w - 1 has exactly the bits below w. */
  lemma {:induction false} LowMaskBits(w: nat, j: nat)
    ensures Bit(Pow2(w) - 1, j) <==> j < w
  {
    if w == 0 {
      NoBitAbove(0, 0, j);
    } else if j > 0 {
      assert (Pow2(w) - 1) / 2 == Pow2(w - 1) - 1;
      LowMaskBits(w - 1, j - 1);
    }
  }

  /** Setting a clear bit below w adds one to the count of bits below w. */
  lemma {:induction false} PopCountSetBit(s: uint16, b: int, w: nat)
    requires 0 <= b < 16 && !Bit(s, b)
    ensures PopCount(SetBit(s, b), w) == PopCount(s, w) + (if b < w then 1 else 0)
  {
    if w > 0 {
      PopCountSetBit(s, b, w - 1);
    }
  }

  /** Two patterns below 2^w with the same bits below w are equal. */
  lemma {:induction false} SameBits(a: nat, b: nat, w: nat)
    requires a < Pow2(w) && b < Pow2(w)
    requires forall j :: 0 <= j < w ==> (Bit(a, j) <==> Bit(b, j))
    ensures a == b
  {
    if w > 0 {
      assert a % 2 == b % 2 by {
        assert Bit(a, 0) <==> Bit(b, 0);
      }
      forall j | 0 <= j < w - 1
        ensures Bit(a / 2, j) <==> Bit(b / 2, j)
      {
        assert Bit(a, j + 1) <==> Bit(b, j + 1);
      }
      SameBits(a / 2, b / 2, w - 1);
    }
  }

  /** The smaller of two naturals. */
  function Min(a: nat, b: nat): nat {
    if a < b then a else b
  }

  /** The quotient is the unique q with a == k * q + r and 0 <= r < k. */
  lemma DivUnique(a: nat, k: nat, q: nat, r: nat)
    requires 0 < k && r < k && a == k * q + r
    ensures a / k == q
  {
    var q', r' := a / k, a % k;
    if q' > q {
      MulMonotone(k, q + 1, q');
      assert false;
    } else if q' < q {
      MulMonotone(k, q' + 1, q);
      assert false;
    }
  }

  /** The same for an integer dividend, whose remainder is never negative. */
  lemma ModUnique(a: int, k: nat, q: int, r: nat)
    requires 0 < k && r < k && a == k * q + r
    ensures a % k == r && a / k == q
  {
    var q', r' := a / k, a % k;
    assert k * (q' - q) == r - r';
    if q' > q {
      MulAtLeast(k, q' - q);
      assert false;
    } else if q' < q {
      MulAtLeast(k, q - q');
      assert false;
    }
  }

  lemma MulAtLeast(k: nat, d: int)
    requires 1 <= d
    ensures k <= k * d
  {
    MulMonotone(k, 1, d);
  }

  /** Division by k is monotone. */
  lemma DivMonotone(a: nat, b: nat, k: nat)
    requires 0 < k && a <= b
    ensures a / k <= b / k
  {
    if a / k > b / k {
      MulMonotone(k, b / k + 1, a / k);
      assert false;
    }
  }

  /** Adding the divisor adds one to the quotient. */
  lemma DivAddDivisor(a: nat, k: nat)
    requires 0 < k
    ensures (a + k) / k == a / k + 1
  {
    DivUnique(a + k, k, a / k + 1, a % k);
  }

  /** A dividend below m * k has a quotient below m. */
  lemma DivBelow(a: nat, k: nat, m: nat)
    requires 0 < k && a < m * k
    ensures a / k < m
  {
    if a / k >= m {
      MulMonotone(k, m, a / k);
      assert false;
    }
  }

  lemma MulMonotone(k: nat, a: nat, b: nat)
    requires a <= b
    ensures k * a <= k * b
  {
    assert k * b == k * a + k * (b - a);
  }
}
