/** The padding of section 5.1.1 of FIPS 180-4 loses nothing. */
module Sha256Padding {
  import opened Sha256Spec

  function Power256(k: nat): (p: nat)
    ensures p > 0
  {
    if k == 0 then 1 else 256 * Power256(k - 1)
  }

  lemma {:induction false} BytesDetermine(x: nat, y: nat, k: nat)
    requires x < Power256(k) && y < Power256(k)
    requires forall i: nat :: i < k ==> ByteOf(x, i) == ByteOf(y, i)
    ensures x == y
  {
    if k > 0 {
      forall i: nat | i < k - 1
        ensures ByteOf(x / 256, i) == ByteOf(y / 256, i)
      {
        assert ByteOf(x, i + 1) == ByteOf(y, i + 1);
      }
      hide LowByte;
      BytesDetermine(x / 256, y / 256, k - 1);
      assert ByteOf(x, 0) == ByteOf(y, 0);
      SameLowByte(x, y);
    }
  }

  function Bound(k: nat): (b: Byte)
  {
    if k == 0 then 1 else Bound(k - 1) << 1
  }

  lemma {:induction false} LowBitsBound(n: nat, k: nat)
    requires k <= 7
    ensures LowBits(n, k) < Bound(k) && Bound(k) <= Bound(7)
  {
    assert Bound(3) == 8 && Bound(5) == 32 && Bound(7) == 128;
    if k > 0 {
      LowBitsBound(n / 2, k - 1);
    }
  }

  function Power2(k: nat): (p: nat)
  {
    if k == 0 then 1 else 2 * Power2(k - 1)
  }

  lemma DoubleStep(d: int, p: nat)
    ensures 2 * (d * p) == d * (2 * p)
  {
  }

  lemma ShiftLosesNothing(a: Byte, b: Byte, p: Byte, q: Byte)
    requires a < 128 && b < 128 && p <= 1 && q <= 1
    requires (a << 1) | p == (b << 1) | q
    ensures a == b && p == q
  {
  }

  /** Numbers with the same k lowest digits differ by a multiple of 2^k. */
  lemma {:induction false} LowBitsDetermine(x: nat, y: nat, k: nat) returns (d: int)
    requires k <= 8 && LowBits(x, k) == LowBits(y, k)
    ensures x - y == d * Power2(k)
  {
    if k == 0 {
      d := x - y;
    } else {
      LowBitsBound(x / 2, k - 1);
      LowBitsBound(y / 2, k - 1);
      var p: Byte, q: Byte := if x % 2 == 1 then 1 else 0, if y % 2 == 1 then 1 else 0;
      assert Bound(7) == 128;
      ShiftLosesNothing(LowBits(x / 2, k - 1), LowBits(y / 2, k - 1), p, q);
      d := LowBitsDetermine(x / 2, y / 2, k - 1);
      hide LowBits, Bound;
      DoubleStep(d, Power2(k - 1));
    }
  }

  lemma SameRemainder(x: nat, y: nat, d: int)
    requires x - y == d * 256
    ensures x % 256 == y % 256
  {
  }

  lemma TwoToTheEighth()
    ensures Power2(8) == 256
  {
    assert Power2(3) == 8 && Power2(6) == 64;
  }

  lemma SameLowByte(x: nat, y: nat)
    requires LowByte(x) == LowByte(y)
    ensures x % 256 == y % 256
  {
    var d := LowBitsDetermine(x, y, 8);
    hide *;
    TwoToTheEighth();
    SameRemainder(x, y, d);
  }

  lemma LengthBytesDetermine(x: nat, y: nat)
    requires x < 0x1_0000_0000_0000_0000 && y < 0x1_0000_0000_0000_0000
    requires LengthBytes(x) == LengthBytes(y)
    ensures x == y
  {
    forall i: nat | i < 8
      ensures ByteOf(x, i) == ByteOf(y, i)
    {
      assert LengthBytes(x)[7 - i] == LengthBytes(y)[7 - i];
    }
    assert Power256(8) == 0x1_0000_0000_0000_0000 by {
      assert Power256(4) == 0x1_0000_0000;
    }
    BytesDetermine(x, y, 8);
  }

  lemma SameLength(x: nat, y: nat)
    requires BlockCount(x) == BlockCount(y) && BitLength(x) == BitLength(y)
    ensures x == y
  {
    assert -64 < x - y < 64;
  }

  /** Two messages with one padding are one message, even where the 64-bit length has wrapped. */
  lemma PadIsInjective(m: seq<Byte>, n: seq<Byte>)
    requires Pad(m) == Pad(n)
    ensures m == n
  {
    var p, q := BitLength(|m|), BitLength(|n|);
    hide BitLength, LengthBytes, ZeroCount;
    var end := |Pad(m)| - 8;
    assert LengthBytes(p) == Pad(m)[end..] && LengthBytes(q) == Pad(n)[end..];
    LengthBytesDetermine(p, q);
    SameLength(|m|, |n|);
    assert m == Pad(m)[..|m|] && n == Pad(n)[..|n|];
  }
}
