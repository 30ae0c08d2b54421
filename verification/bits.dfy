/** Bytes and words as integers, and the C operators on them that the emulator cores use. */
module Bits {

  type Byte = b: int | 0 <= b < 0x100

  type Word = w: int | 0 <= w < 0x10000

  /** Assignment to a uint8_t, a uint16_t and an unsigned int. */
  function U8(v: int): Byte {
    v % 0x100
  }

  function U16(v: int): Word {
    v % 0x10000
  }

  function U32(v: int): (r: int)
    ensures 0 <= r < 0x1_0000_0000
  {
    v % 0x1_0000_0000
  }

  function Lo(w: int): Byte {
    w % 0x100
  }

  function Hi(w: int): Byte {
    w / 0x100 % 0x100
  }

  function Pair(lo: Byte, hi: Byte): Word {
    lo + 0x100 * hi
  }

  /** v & (1 << k) is not zero. */
  predicate Bit0(v: int) { v % 2 == 1 }
  predicate Bit1(v: int) { v % 0x4 >= 0x2 }
  predicate Bit2(v: int) { v % 0x8 >= 0x4 }
  predicate Bit3(v: int) { v % 0x10 >= 0x8 }
  predicate Bit4(v: int) { v % 0x20 >= 0x10 }
  predicate Bit5(v: int) { v % 0x40 >= 0x20 }
  predicate Bit6(v: int) { v % 0x80 >= 0x40 }
  predicate Bit7(v: int) { v % 0x100 >= 0x80 }
  predicate Bit8(v: int) { v % 0x200 >= 0x100 }

  function And(a: Byte, b: Byte): Byte {
    ((a as bv8) & (b as bv8)) as int
  }

  function Or(a: Byte, b: Byte): Byte {
    ((a as bv8) | (b as bv8)) as int
  }

  function Xor(a: Byte, b: Byte): Byte {
    ((a as bv8) ^ (b as bv8)) as int
  }

  function Num(b: bool): int {
    if b then 1 else 0
  }

  /** A number that is a high digit over a low nibble: what the C expressions on it see. */
  lemma Nibbles(hi: int, lo: int)
    requires 0 <= lo < 16
    ensures (16 * hi + lo) / 16 == hi && (16 * hi + lo) % 16 == lo
    ensures Bit7(16 * hi + lo) == (hi % 16 >= 8)
    ensures U8(16 * hi + lo) == 16 * (hi % 16) + lo
  {
    var q, r := hi / 16, hi % 16;
    assert 16 * hi + lo == 0x100 * q + (16 * r + lo);
  }

  /** A small negative number held in an unsigned int. */
  lemma Wrapped(v: int)
    requires -0x200 <= v < 0x100
    ensures U32(v) == (if v < 0 then v + 0x1_0000_0000 else v)
    ensures U8(U32(v)) == U8(v)
    ensures -0x100 <= v ==> Bit8(U32(v)) == (v < 0)
  {
  }

  lemma Mod16(v: int, k: int)
    ensures U16(U16(v) + k) == U16(v + k)
  {
  }

  lemma Mod8(v: int, k: int)
    ensures U8(U8(v) + k) == U8(v + k)
  {
  }

  /** The bytes of a word do not depend on what is above its 16 bits. */
  lemma Parts16(v: int)
    ensures Lo(U16(v)) == Lo(v) && Hi(U16(v)) == Hi(v)
  {
  }

  lemma PairParts(lo: Byte, hi: Byte)
    ensures Lo(Pair(lo, hi)) == lo && Hi(Pair(lo, hi)) == hi
  {
  }

  /** A rotation to the left moves bit 7 out. */
  lemma CarryOut(v: Byte, c: bool)
    ensures Bit8(2 * v + Num(c)) == Bit7(v)
  {
  }

  /** The page does not matter in a byte. */
  lemma PageByte(v: int)
    ensures U8(0x100 + v) == U8(v)
  {
  }

  /** Addresses less than a bank apart differ. */
  lemma Apart16(v: int, i: int, j: int)
    requires 0 < j - i < 0x10000
    ensures U16(v - i) != U16(v - j)
  {
    var q := (v - j) / 0x10000;
    assert v - j == 0x10000 * q + U16(v - j);
  }

  lemma Mod8Byte(b: Byte)
    ensures U8(b) == b
  {
  }

  lemma Mod16Word(w: Word)
    ensures U16(w) == w
  {
  }

  /** The number with the given binary digits, the lowest first. */
  function FromBits(bs: seq<bool>): nat {
    if bs == [] then 0 else Num(bs[0]) + 2 * FromBits(bs[1..])
  }

  function Power2(n: nat): nat {
    if n == 0 then 1 else 2 * Power2(n - 1)
  }

  lemma {:induction false} FromBitsRange(bs: seq<bool>)
    ensures FromBits(bs) < Power2(|bs|)
  {
    if bs != [] {
      FromBitsRange(bs[1..]);
    }
  }

  /** The byte with these bits. */
  function ByteOf(b7: bool, b6: bool, b5: bool, b4: bool, b3: bool, b2: bool, b1: bool, b0: bool): Byte {
    FromBitsRange([b0, b1, b2, b3, b4, b5, b6, b7]);
    assert Power2(8) == 0x100;
    FromBits([b0, b1, b2, b3, b4, b5, b6, b7])
  }

  lemma FromBitsCons(b: bool, bs: seq<bool>)
    ensures FromBits([b] + bs) == Num(b) + 2 * FromBits(bs)
  {
    assert ([b] + bs)[1..] == bs;
  }

  lemma FourBits(b3: bool, b2: bool, b1: bool, b0: bool, bs: seq<bool>)
    ensures FromBits([b0, b1, b2, b3] + bs) == Num(b0) + 2 * Num(b1) + 4 * Num(b2) + 8 * Num(b3) + 16 * FromBits(bs)
  {
    hide FromBits, Num;
    assert [b0, b1, b2, b3] + bs == [b0] + ([b1] + ([b2] + ([b3] + bs)));
    FromBitsCons(b0, [b1] + ([b2] + ([b3] + bs)));
    FromBitsCons(b1, [b2] + ([b3] + bs));
    FromBitsCons(b2, [b3] + bs);
    FromBitsCons(b3, bs);
  }

  lemma NoBits()
    ensures FromBits([]) == 0
  {
  }

  lemma ByteSum(b7: bool, b6: bool, b5: bool, b4: bool, b3: bool, b2: bool, b1: bool, b0: bool)
    ensures ByteOf(b7, b6, b5, b4, b3, b2, b1, b0)
         == Num(b0) + 2 * Num(b1) + 4 * Num(b2) + 8 * Num(b3) + 16 * Num(b4) + 32 * Num(b5) + 64 * Num(b6) + 128 * Num(b7)
  {
    hide FromBits, Num;
    var high, all := [b4, b5, b6, b7], [b0, b1, b2, b3, b4, b5, b6, b7];
    assert FromBits([]) == 0 by { NoBits(); }
    assert high == [b4, b5, b6, b7] + [];
    FourBits(b7, b6, b5, b4, []);
    assert all == [b0, b1, b2, b3] + high;
    FourBits(b3, b2, b1, b0, high);
  }

  /** The bits of a byte that is put together from them. */
  lemma ByteBits(b7: bool, b6: bool, b5: bool, b4: bool, b3: bool, b2: bool, b1: bool, b0: bool)
    ensures var s := ByteOf(b7, b6, b5, b4, b3, b2, b1, b0);
            Bit7(s) == b7 && Bit6(s) == b6 && Bit5(s) == b5 && Bit4(s) == b4
            && Bit3(s) == b3 && Bit2(s) == b2 && Bit1(s) == b1 && Bit0(s) == b0
  {
    hide ByteOf, Bit0, Bit1, Bit2, Bit3, Bit4, Bit5, Bit6, Bit7;
    ByteSum(b7, b6, b5, b4, b3, b2, b1, b0);
    SumBits(Num(b7), Num(b6), Num(b5), Num(b4), Num(b3), Num(b2), Num(b1), Num(b0));
  }

  lemma SumBits(b7: int, b6: int, b5: int, b4: int, b3: int, b2: int, b1: int, b0: int)
    requires 0 <= b7 <= 1 && 0 <= b6 <= 1 && 0 <= b5 <= 1 && 0 <= b4 <= 1
    requires 0 <= b3 <= 1 && 0 <= b2 <= 1 && 0 <= b1 <= 1 && 0 <= b0 <= 1
    ensures var s := b0 + 2 * b1 + 4 * b2 + 8 * b3 + 16 * b4 + 32 * b5 + 64 * b6 + 128 * b7;
            Bit7(s) == (b7 == 1) && Bit6(s) == (b6 == 1) && Bit5(s) == (b5 == 1) && Bit4(s) == (b4 == 1)
            && Bit3(s) == (b3 == 1) && Bit2(s) == (b2 == 1) && Bit1(s) == (b1 == 1) && Bit0(s) == (b0 == 1)
  {
    hide Bit0, Bit1, Bit2, Bit3, Bit4, Bit5, Bit6, Bit7;
    var s1 := b0 + 2 * b1;
    var s2 := s1 + 4 * b2;
    var s3 := s2 + 8 * b3;
    var s4 := s3 + 16 * b4;
    var s5 := s4 + 32 * b5;
    var s := s5 + 64 * b6 + 128 * b7;
    LowDigits(s, 0, b0, b1 + 2 * b2 + 4 * b3 + 8 * b4 + 16 * b5 + 32 * b6 + 64 * b7);
    LowDigits(s, b0, b1, b2 + 2 * b3 + 4 * b4 + 8 * b5 + 16 * b6 + 32 * b7);
    LowDigits(s, s1, b2, b3 + 2 * b4 + 4 * b5 + 8 * b6 + 16 * b7);
    LowDigits(s, s2, b3, b4 + 2 * b5 + 4 * b6 + 8 * b7);
    MiddleDigits(s, s3, b4, b5 + 2 * b6 + 4 * b7);
    MiddleDigits(s, s4, b5, b6 + 2 * b7);
    TopDigits(s, s5, b6, b7);
    TopDigits(s, s5 + 64 * b6, b7, 0);
  }

  /** One binary digit of s with the digits below and above it. */
  lemma LowDigits(s: int, low: int, b: int, q: int)
    requires 0 <= low && 0 <= b <= 1
    ensures low < 1 && s == low + b + 2 * q ==> Bit0(s) == (b == 1)
    ensures low < 2 && s == low + 2 * b + 4 * q ==> Bit1(s) == (b == 1)
    ensures low < 4 && s == low + 4 * b + 8 * q ==> Bit2(s) == (b == 1)
    ensures low < 8 && s == low + 8 * b + 16 * q ==> Bit3(s) == (b == 1)
  {
    Remainder(low + b, q, 2);
    Remainder(low + 2 * b, q, 4);
    Remainder(low + 4 * b, q, 8);
    Remainder(low + 8 * b, q, 16);
  }

  lemma MiddleDigits(s: int, low: int, b: int, q: int)
    requires 0 <= low && 0 <= b <= 1
    ensures low < 0x10 && s == low + 0x10 * b + 0x20 * q ==> Bit4(s) == (b == 1)
    ensures low < 0x20 && s == low + 0x20 * b + 0x40 * q ==> Bit5(s) == (b == 1)
  {
    Remainder(low + 0x10 * b, q, 0x20);
    Remainder(low + 0x20 * b, q, 0x40);
  }

  lemma TopDigits(s: int, low: int, b: int, q: int)
    requires 0 <= low && 0 <= b <= 1
    ensures low < 0x40 && s == low + 0x40 * b + 0x80 * q ==> Bit6(s) == (b == 1)
    ensures low < 0x80 && s == low + 0x80 * b + 0x100 * q ==> Bit7(s) == (b == 1)
  {
    Remainder(low + 0x40 * b, q, 0x80);
    Remainder(low + 0x80 * b, q, 0x100);
  }

  /** The remainder of a number whose quotient is known. */
  lemma Remainder(r: int, q: int, d: int)
    requires d > 0
    ensures 0 <= r < d ==> (r + d * q) % d == r
  {
    var n := r + d * q;
    var k := n / d - q;
    assert n == d * (n / d) + n % d;
    assert n % d == r - d * k;
    Multiple(d, k);
  }

  lemma Multiple(d: int, k: int)
    requires d > 0
    ensures k >= 1 ==> d * k >= d
    ensures k <= -1 ==> d * k <= -d
  {
    if k >= 1 {
      assert d * k - d == d * (k - 1);
    }
  }

  lemma WordParts(w: Word)
    ensures Pair(Lo(w), Hi(w)) == w
  {
  }
}
