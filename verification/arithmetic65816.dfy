/** ADC and SBC of vice/src/65816core.c, statement by statement, in both widths. */
module Arithmetic65816 {
  import opened Bits
  import opened Isa6510
  import opened Decimal
  import opened DecimalCmos

  // ---- specifications of the 16-bit forms ----

  /** Two operations on bytes, the carry going from the low byte to the high one. */
  function TwoBytes(f: Unit, c: Word, v: Word, cy: bool): (Word, bool) {
    var lo := f(Lo(c), Lo(v), cy);
    var hi := f(Hi(c), Hi(v), lo.1);
    (Pair(lo.0, hi.0), hi.1)
  }

  function AddWords(c: Word, v: Word, cy: bool): (Word, bool) {
    TwoBytes(Add6510, c, v, cy)
  }

  function SubtractWords(c: Word, v: Word, cy: bool): (Word, bool) {
    TwoBytes(Subtract6510, c, v, cy)
  }

  // ---- digits of words ----

  lemma WordDigits(c: Word)
    ensures c % 16 == Lo(c) % 16 && c / 0x10 % 16 == Lo(c) / 16 && c / 0x100 % 16 == Hi(c) % 16
            && c / 0x1000 == Hi(c) / 16
  {
    var h, l := c / 0x100, c % 0x100;
    LowNibbles(h, l);
    assert c / 0x1000 == h / 16;
  }

  lemma LowNibbles(q: int, r: Byte)
    ensures (0x100 * q + r) / 0x10 % 16 == r / 16 && (0x100 * q + r) % 16 == r % 16
  {
    assert 0x100 * q + r == 16 * (16 * q + r / 16) + r % 16;
  }

  // ---- ADC ----

  /** The two low digits, the second one not corrected yet. */
  method AdcDigits01(c: Word, value: Word, carry: bool) returns (tmp: int, ghost h: int, ghost l: int)
    ensures l == DigitCorrected(Lo(c) % 16 + Lo(value) % 16 + Num(carry)) % 16
    ensures h == Lo(c) / 16 + Lo(value) / 16 + Num(DigitCorrected(Lo(c) % 16 + Lo(value) % 16 + Num(carry)) > 15)
    ensures tmp == 16 * h + l && 0 <= l < 16 && 0 <= h < 32
  {
    hide Lo, Hi;
    WordDigits(c);
    WordDigits(value);
    var tmp2 := c % 16 + value % 16 + Num(carry);
    tmp := 16 * (c / 0x10 % 16) + 16 * (value / 0x10 % 16);
    h := c / 0x10 % 16 + value / 0x10 % 16 + Num(tmp2 > 9);
    if tmp2 > 0x9 {
      tmp2 := tmp2 + 0x6;
      tmp := tmp + 0x10;
    }
    l := tmp2 % 16;
    tmp := tmp + tmp2 % 16;
  }

  /** The second digit corrected, the third one added. */
  method AdcDigit2(c: Word, value: Word, t: int, ghost h: int, ghost l: int) returns (tmp2: int, ghost g: int)
    requires t == 16 * h + l && 0 <= l < 16 && 0 <= h < 32
    ensures g == Hi(c) % 16 + Hi(value) % 16 + Num(DigitCorrected(h) > 15)
    ensures tmp2 == 0x100 * g + U8(16 * DigitCorrected(h) + l) && 0 <= g < 32
  {
    hide Lo, Hi;
    WordDigits(c);
    WordDigits(value);
    var tmp := t;
    tmp2 := 0x100 * (c / 0x100 % 16) + 0x100 * (value / 0x100 % 16);
    g := c / 0x100 % 16 + value / 0x100 % 16 + Num(h > 9);
    if tmp > 0x9f {
      tmp := tmp + 0x60;
      tmp2 := tmp2 + 0x100;
    }
    tmp2 := tmp2 + tmp % 0x100;
  }

  method AdcDigit3(c: Word, value: Word, t2: int, ghost g: int, ghost low: Byte) returns (tmp: int, ghost f: int)
    requires t2 == 0x100 * g + low && 0 <= g < 32
    ensures f == Hi(c) / 16 + Hi(value) / 16 + Num(DigitCorrected(g) > 15)
    ensures tmp == 0x1000 * f + 0x100 * (DigitCorrected(g) % 16) + low && 0 <= f < 32
  {
    hide Lo, Hi;
    WordDigits(c);
    WordDigits(value);
    var tmp2 := t2;
    tmp := 0x1000 * (c / 0x1000) + 0x1000 * (value / 0x1000);
    f := c / 0x1000 + value / 0x1000 + Num(g > 9);
    if tmp2 > 0x9ff {
      tmp2 := tmp2 + 0x600;
      tmp := tmp + 0x1000;
    }
    tmp := tmp + tmp2 % 0x1000;
    assert tmp2 == 0x100 * DigitCorrected(g) + low;
    LowTwelve(DigitCorrected(g), low);
  }

  lemma LowTwelve(d: int, low: Byte)
    requires 0 <= d < 64
    ensures (0x100 * d + low) % 0x1000 == 0x100 * (d % 16) + low
  {
  }

  lemma HighDigits(f: int, g: int, low: Byte)
    requires 0 <= f < 32 && 0 <= g < 16
    ensures var t := 0x1000 * DigitCorrected(f) + 0x100 * g + low;
            U16(t) == Pair(low, U8(16 * DigitCorrected(f) + g)) && (t > 0xffff) == (DigitCorrected(f) > 15)
    ensures (0x1000 * f + 0x100 * g + low > 0x9fff) == (f > 9)
  {
    SixMore(f);
    hide DigitCorrected;
    ThreeDigits(DigitCorrected(f), g, low);
  }

  lemma ThreeDigits(d: int, g: int, low: Byte)
    requires 0 <= d < 64 && 0 <= g < 16
    ensures var t := 0x1000 * d + 0x100 * g + low;
            U16(t) == Pair(low, U8(16 * d + g)) && (t > 0xffff) == (d > 15)
  {
    var q, r := d / 16, d % 16;
    hide U8, U16;
    Modulo8(q, 16 * r + g);
    Modulo16(q, 0x1000 * r + 0x100 * g + low);
    assert 16 * d + g == 0x100 * q + (16 * r + g);
    assert 0x1000 * d + 0x100 * g + low == 0x10000 * q + (0x1000 * r + 0x100 * g + low);
  }

  lemma Modulo8(q: int, r: Byte)
    ensures U8(0x100 * q + r) == r
  {
  }

  lemma Modulo16(q: int, r: Word)
    ensures U16(0x10000 * q + r) == r
  {
  }

  /** The top digit of the sum before its correction. */
  function TopSum(c: Word, v: Word, cy: bool): int {
    var low := Add6510(Lo(c), Lo(v), cy);
    Hi(c) / 16 + Hi(v) / 16 + Num(DigitCorrected(Hi(c) % 16 + Hi(v) % 16 + Num(low.1)) > 15)
  }

  /** The 16-bit decimal addition is two chained 8-bit ones, on all inputs.  The overflow flag looks at bit 15 of the
      8-bit accumulator, which is 0. */
  method AdcDecimal16(c: Word, value: Word, carry: bool) returns (tmp: int, v: bool)
    ensures (U16(tmp), tmp > 0xffff) == AddWords(c, value, carry)
    ensures v == OverflowWritten(c, value, carry)
  {
    hide Lo, Hi, U8, U16, DigitCorrected, AddDecimal, Add6510;
    AddParts(Lo(c), Lo(value), carry);
    ghost var h, l, g, f;
    var tmp2;
    tmp, h, l := AdcDigits01(c, value, carry);
    tmp2, g := AdcDigit2(c, value, tmp, h, l);
    AddParts(Hi(c), Hi(value), Add6510(Lo(c), Lo(value), carry).1);
    ghost var low := U8(16 * DigitCorrected(h) + l);
    tmp, f := AdcDigit3(c, value, tmp2, g, low);
    CorrectedRange(g);
    HighDigits(f, DigitCorrected(g) % 16, low);
    SixMore(f);
    TopBit(f, 0x100 * (DigitCorrected(g) % 16) + low);
    v := value < 0x8000 && tmp / 0x8000 % 2 == 1;
    if tmp > 0x9fff {
      tmp := tmp + 0x6000;
    }
  }

  lemma TopBit(f: int, rest: int)
    requires 0 <= rest < 0x1000
    ensures ((0x1000 * f + rest) / 0x8000 % 2 == 1) == (f % 16 >= 8)
  {
    var q, r := f / 8, f % 8;
    assert 0x1000 * f + rest == 0x8000 * q + (0x1000 * r + rest);
  }

  lemma CorrectedRange(g: int)
    requires 0 <= g < 32
    ensures 0 <= DigitCorrected(g) < 64
  {
  }

  lemma SixMore(f: int)
    ensures DigitCorrected(f) == if f > 9 then f + 6 else f
  {
  }

  /** 8-bit ADC; N and Z are taken from the result. */
  method Adc8(a: Byte, value: Byte, st: Status) returns (tmp: int, v: bool, c: bool)
    ensures var r := AddCmos(a, value, st);
            U8(tmp) == r.0 && c == r.1.c && v == r.1.v
  {
    hide U8, Bit7, DigitCorrected, AddDecimal;
    if st.d {
      AddDecimalParts(a, value, st);
      var t, h, l := AdcByteDigits(a, value, st.c);
      Nibbles(h, l);
      v := Bit7(a) == Bit7(value) && Bit7(a) != Bit7(t);
      SixMore(h);
      tmp := t;
      if tmp > 0x9f {
        tmp := tmp + 0x60;
      }
      c := tmp > 0xff;
    } else {
      tmp := Num(st.c) + value + a;
      v := Bit7(a) == Bit7(value) && Bit7(a) != Bit7(tmp);
      c := tmp > 0xff;
    }
  }

  method AdcByteDigits(a: Byte, value: Byte, carry: bool) returns (tmp: int, ghost h: int, ghost l: int)
    ensures l == DigitCorrected(a % 16 + value % 16 + Num(carry)) % 16
    ensures h == a / 16 + value / 16 + Num(DigitCorrected(a % 16 + value % 16 + Num(carry)) > 15)
    ensures tmp == 16 * h + l && 0 <= l < 16 && 0 <= h < 32
  {
    var tmp2 := a % 16 + value % 16 + Num(carry);
    tmp := 16 * (a / 16) + 16 * (value / 16);
    h := a / 16 + value / 16 + Num(tmp2 > 9);
    if tmp2 > 0x9 {
      tmp2 := tmp2 + 0x6;
      tmp := tmp + 0x10;
    }
    l := tmp2 % 16;
    tmp := tmp + tmp2 % 16;
  }

  // ---- SBC ----

  function LowBorrow(c: Word, v: Word, cy: bool): int {
    Lo(c) % 16 - Lo(v) % 16 - Num(!cy)
  }

  function ByteBorrow(c: Word, v: Word, cy: bool): int {
    Lo(c) / 16 - Lo(v) / 16 - Num(LowBorrow(c, v, cy) < 0)
  }

  function ThirdBorrow(c: Word, v: Word, cy: bool): int {
    Hi(c) % 16 - Hi(v) % 16 - Num(ByteBorrow(c, v, cy) < 0)
  }

  function LastBorrow(c: Word, v: Word, cy: bool): int {
    Hi(c) / 16 - Hi(v) / 16 - Num(ThirdBorrow(c, v, cy) < 0)
  }

  function Reduced(d: int): int {
    if d < 0 then d - 6 else d
  }

  method SbcDigit0(c: Word, value: Word, carry: bool) returns (tmp: int)
    ensures tmp == Reduced(LowBorrow(c, value, carry)) % 16
  {
    hide Lo, Reduced;
    WordDigits(c);
    WordDigits(value);
    var tmp2 := c % 16 + (15 - value % 16) + Num(carry);
    DigitComplement(LowBorrow(c, value, carry));
    tmp := (if tmp2 < 0x10 then tmp2 - 0x6 else tmp2) % 16;
  }

  lemma DigitComplement(d: int)
    ensures (if 16 + d < 0x10 then 16 + d - 0x6 else 16 + d) % 16 == Reduced(d) % 16
  {
  }

  method SbcDigit1(c: Word, value: Word, carry: bool) returns (digit: int)
    ensures digit == Reduced(ByteBorrow(c, value, carry)) % 16
  {
    hide Lo;
    WordDigits(c);
    WordDigits(value);
    LowDigits(c);
    LowDigits(value);
    var tmp2 := c % 0x100 + (0xff - value % 0x100) + Num(carry);
    ghost var lo := LowBorrow(c, value, carry);
    assert tmp2 == 0x100 + 16 * ByteBorrow(c, value, carry) + (if lo < 0 then lo + 16 else lo);
    hide ByteBorrow, LowBorrow;
    TopDigit(Reduced(ByteBorrow(c, value, carry)), if lo < 0 then lo + 16 else lo);
    digit := (if tmp2 < 0x100 then tmp2 - 0x60 else tmp2) / 0x10 % 16;
  }

  lemma LowDigits(c: Word)
    ensures c % 0x100 == 16 * (c / 0x10 % 16) + c % 16
    ensures c % 0x1000 == 0x100 * (c / 0x100 % 16) + c % 0x100
    ensures c == 0x1000 * (c / 0x1000) + c % 0x1000
  {
    var q, r := c / 0x100, c % 0x100;
    assert c == 0x1000 * (q / 16) + (0x100 * (q % 16) + r);
    assert r == 16 * (r / 16) + r % 16;
    assert c == 0x100 * q + (16 * (r / 16) + r % 16);
    LowNibbles(q, r);
  }

  /** The digit on top of a sum, with the power of sixteen that the complement has added. */
  lemma TopDigit(x: int, y: int)
    ensures 0 <= y < 0x10 ==> (0x10 * (16 + x) + y) / 0x10 % 16 == x % 16
    ensures 0 <= y < 0x100 ==> (0x100 * (16 + x) + y) / 0x100 % 16 == x % 16
    ensures 0 <= y < 0x1000 ==> (0x1000 * (16 + x) + y) / 0x1000 % 16 == x % 16
  {
  }

  /** The difference of the two low bytes. */
  lemma ByteDifference(c: Word, value: Word, carry: bool)
    ensures var d := c % 0x100 - value % 0x100 - Num(!carry);
            (d < 0) == (ByteBorrow(c, value, carry) < 0) && -0x100 <= d <= 0xff
  {
    hide Lo;
    WordDigits(c);
    WordDigits(value);
    LowDigits(c);
    LowDigits(value);
  }

  method SbcDigit2(c: Word, value: Word, carry: bool) returns (digit: int)
    ensures digit == Reduced(ThirdBorrow(c, value, carry)) % 16
  {
    hide Lo, Hi, ByteBorrow;
    WordDigits(c);
    WordDigits(value);
    LowDigits(c);
    LowDigits(value);
    ByteDifference(c, value, carry);
    var tmp2 := c % 0x1000 + (0xfff - value % 0x1000) + Num(carry);
    ghost var d := c % 0x100 - value % 0x100 - Num(!carry);
    assert tmp2 == 0x1000 + 0x100 * ThirdBorrow(c, value, carry) + (if d < 0 then d + 0x100 else d);
    hide ThirdBorrow;
    TopDigit(Reduced(ThirdBorrow(c, value, carry)), if d < 0 then d + 0x100 else d);
    digit := (if tmp2 < 0x1000 then tmp2 - 0x600 else tmp2) / 0x100 % 16;
  }

  lemma TwelveDifference(c: Word, value: Word, carry: bool)
    ensures var d := c % 0x1000 - value % 0x1000 - Num(!carry);
            (d < 0) == (ThirdBorrow(c, value, carry) < 0) && -0x1000 <= d <= 0xfff
  {
    hide Lo, Hi, ByteBorrow;
    WordDigits(c);
    WordDigits(value);
    LowDigits(c);
    LowDigits(value);
    ByteDifference(c, value, carry);
  }

  method SbcDigit3(c: Word, value: Word, carry: bool) returns (digit: int, cOut: bool)
    ensures digit == Reduced(LastBorrow(c, value, carry)) % 16 && cOut == (LastBorrow(c, value, carry) >= 0)
  {
    hide Lo, Hi, ByteBorrow, ThirdBorrow;
    WordDigits(c);
    WordDigits(value);
    LowDigits(c);
    LowDigits(value);
    TwelveDifference(c, value, carry);
    var tmp2 := c + (0xffff - value) + Num(carry);
    ghost var d := c % 0x1000 - value % 0x1000 - Num(!carry);
    assert tmp2 == 0x10000 + 0x1000 * LastBorrow(c, value, carry) + (if d < 0 then d + 0x1000 else d);
    hide LastBorrow;
    TopDigit(Reduced(LastBorrow(c, value, carry)), if d < 0 then d + 0x1000 else d);
    digit := (if tmp2 < 0x10000 then tmp2 - 0x6000 else tmp2) / 0x1000 % 16;
    cOut := tmp2 > 0xffff;
  }

  lemma FourDigits(c: Word, v: Word, cy: bool)
    ensures var d0, d1 := Reduced(LowBorrow(c, v, cy)) % 16, Reduced(ByteBorrow(c, v, cy)) % 16;
            var d2, d3 := Reduced(ThirdBorrow(c, v, cy)) % 16, Reduced(LastBorrow(c, v, cy)) % 16;
            SubtractWords(c, v, cy) == (d0 + 16 * d1 + 0x100 * d2 + 0x1000 * d3, LastBorrow(c, v, cy) >= 0)
  {
    hide Lo, Hi, Subtract6510, U8;
    SubtractParts(Lo(c), Lo(v), cy);
    SubtractParts(Hi(c), Hi(v), Subtract6510(Lo(c), Lo(v), cy).1);
    Nibbles(Reduced(ByteBorrow(c, v, cy)), Reduced(LowBorrow(c, v, cy)) % 16);
    Nibbles(Reduced(LastBorrow(c, v, cy)), Reduced(ThirdBorrow(c, v, cy)) % 16);
  }

  /** The 16-bit decimal subtraction of the word that is read as the accumulator. */
  method SbcDecimal16(acc: Word, value: Word, carry: bool) returns (tmp: Word, cOut: bool)
    ensures (tmp, cOut) == SubtractWords(acc, value, carry)
  {
    hide SubtractWords, LowBorrow, ByteBorrow, ThirdBorrow, LastBorrow, Reduced;
    FourDigits(acc, value, carry);
    var d0 := SbcDigit0(acc, value, carry);
    var d1 := SbcDigit1(acc, value, carry);
    var d2 := SbcDigit2(acc, value, carry);
    var d3;
    d3, cOut := SbcDigit3(acc, value, carry);
    tmp := d0 + 16 * d1 + 0x100 * d2 + 0x1000 * d3;
  }

  /** 8-bit SBC, the binary difference by adding the complement. */
  method Sbc8(a: Byte, value: Byte, st: Status) returns (r: Byte, v: bool, c: bool)
    ensures var s := Subtract65816(a, value, st);
            r == s.0 && c == s.1.c && v == s.1.v
  {
    hide U8, SubtractDecimal;
    var tmp := Num(st.c) + (0xff - value) + a;
    ComplementSum(a - value - Num(!st.c));
    v := Bit7(a) != Bit7(value) && Bit7(a) != Bit7(tmp);
    if st.d {
      r, c := SbcDecimal8(a, value, st.c);
    } else {
      c := tmp > 0xff;
      r := U8(tmp);
    }
  }

  lemma ComplementSum(d: int)
    ensures Bit7(d + 0x100) == Bit7(d) && U8(d + 0x100) == U8(d)
  {
  }

  lemma ByteBorrows(a: Byte, v: Byte, cy: bool)
    ensures var lo := a % 16 - v % 16 - Num(!cy);
            LowBorrow(a, v, cy) == lo && ByteBorrow(a, v, cy) == a / 16 - v / 16 - Num(lo < 0)
  {
  }

  /** The first two digits are computed as in the 16-bit form. */
  method SbcDecimal8(a: Byte, value: Byte, carry: bool) returns (tmp: Byte, c: bool)
    ensures tmp == SubtractDecimal(a, value, carry) && c == (a - value - Num(!carry) >= 0)
  {
    hide U8, LowBorrow, ByteBorrow;
    ByteBorrows(a, value, carry);
    var d0 := SbcDigit0(a, value, carry);
    var d1 := SbcDigit1(a, value, carry);
    Nibbles(Reduced(ByteBorrow(a, value, carry)), d0);
    tmp := d0 + 16 * d1;
    var tmp2 := a + (0xff - value) + Num(carry);
    c := tmp2 > 0xff;
  }

  // ---- what the 16-bit forms mean ----

  predicate IsBcdWord(c: Word) {
    IsBcd(Lo(c)) && IsBcd(Hi(c))
  }

  function WordValue(c: Word): int {
    Value(Lo(c)) + 100 * Value(Hi(c))
  }

  /** The overflow flag of a 16-bit decimal addition as it is written: bit 15 of the 8-bit accumulator is 0. */
  predicate OverflowWritten(c: Word, v: Word, cy: bool) {
    v < 0x8000 && TopSum(c, v, cy) % 16 >= 8
  }

  /** What it should be: operands of one sign give a sum, before its top digit is corrected, of the other. */
  predicate Overflows(c: Word, v: Word, cy: bool) {
    (c >= 0x8000) == (v >= 0x8000) && (c >= 0x8000) != (TopSum(c, v, cy) % 16 >= 8)
  }

  /** That sum has its sign bit set when the decimal sum is between 8000 and 15999. */
  predicate NegativeSum(c: Word, v: Word, cy: bool) {
    8000 <= WordValue(c) + WordValue(v) + Num(cy) < 16000
  }

  lemma TopDigits(low: int, g: int, h: int)
    requires 0 <= low <= 99 && 0 <= g <= 19 && 0 <= h <= 18
    ensures (h + Num(g > 9)) % 16 >= 8 <==> 8000 <= low + 100 * g + 1000 * h < 16000
  {
  }

  lemma ByteValues(b: Byte)
    ensures Value(b) == 10 * (b / 16) + b % 16
    ensures IsBcd(b) ==> b / 16 <= 9 && b % 16 <= 9
  {
  }

  lemma SumSign(c: Word, v: Word, cy: bool)
    requires IsBcdWord(c) && IsBcdWord(v)
    ensures TopSum(c, v, cy) % 16 >= 8 <==> NegativeSum(c, v, cy)
  {
    hide Lo, Hi, Add6510, DigitCorrected, Value, IsBcd, Adds;
    ExactSum(Lo(c), Lo(v), cy);
    var low := Add6510(Lo(c), Lo(v), cy);
    ByteValues(low.0);
    ByteValues(Hi(c));
    ByteValues(Hi(v));
    var g := Hi(c) % 16 + Hi(v) % 16 + Num(low.1);
    SixMore(g);
    TopDigits(Value(low.0), g, Hi(c) / 16 + Hi(v) / 16);
  }

  lemma ExactSum(a: Byte, v: Byte, c: bool)
    requires IsBcd(a) && IsBcd(v)
    ensures var r := Add6510(a, v, c);
            IsBcd(r.0) && Value(r.0) + 100 * Num(r.1) == Value(a) + Value(v) + Num(c)
  {
    hide Add6510, IsBcd, Value;
    Adds6510();
  }

  /** As written it is right exactly if the accumulator is below 8000, or the operand and the sum have the same sign. */
  lemma OverflowAsWritten(c: Word, v: Word, cy: bool)
    requires IsBcdWord(c) && IsBcdWord(v)
    ensures OverflowWritten(c, v, cy) == Overflows(c, v, cy) <==> c < 0x8000 || (v >= 0x8000) == NegativeSum(c, v, cy)
  {
    hide TopSum, IsBcdWord, NegativeSum;
    SumSign(c, v, cy);
  }

  lemma EightThousand()
    ensures IsBcdWord(0x8000) && IsBcdWord(0) && WordValue(0x8000) == 8000 && WordValue(0) == 0
  {
  }

  /** 8000 + 0: no overflow, but the flag is set. */
  lemma OverflowAsWrittenWrong()
    ensures OverflowWritten(0x8000, 0x0000, false) && !Overflows(0x8000, 0x0000, false)
  {
    hide TopSum, IsBcdWord, WordValue;
    EightThousand();
    SumSign(0x8000, 0, false);
  }

  /** 16-bit decimal additions are exact. */
  lemma WordsAdd(f: Unit, c: Word, v: Word, cy: bool)
    requires Adds(f) && IsBcdWord(c) && IsBcdWord(v)
    ensures var (r, out) := TwoBytes(f, c, v, cy);
            IsBcdWord(r) && WordValue(r) + 10000 * Num(out) == WordValue(c) + WordValue(v) + Num(cy)
  {
    hide Lo, Hi, IsBcd, Value;
    var lo := f(Lo(c), Lo(v), cy);
    var hi := f(Hi(c), Hi(v), lo.1);
    PairParts(lo.0, hi.0);
  }

  /** So are subtractions, with the correct accumulator. */
  lemma WordsSubtract(f: Unit, c: Word, v: Word, cy: bool)
    requires Subtracts(f) && IsBcdWord(c) && IsBcdWord(v)
    ensures var (r, out) := TwoBytes(f, c, v, cy);
            IsBcdWord(r) && WordValue(r) - 10000 * Num(!out) == WordValue(c) - WordValue(v) - Num(!cy)
  {
    hide Lo, Hi, IsBcd, Value;
    var lo := f(Lo(c), Lo(v), cy);
    var hi := f(Hi(c), Hi(v), lo.1);
    PairParts(lo.0, hi.0);
  }

  /** As written, the 16-bit SBC subtracts from the low byte of C alone. */
  function SubtractAsWritten(c: Word, v: Word, cy: bool): (Word, bool) {
    SubtractWords(Lo(c), v, cy)
  }

  lemma LowWord(c: Word)
    ensures Lo(Lo(c)) == Lo(c) && Hi(Lo(c)) == 0 && (Hi(c) == 0 <==> c < 0x100)
  {
  }

  /** It is right exactly when B is 0. */
  lemma SubtractAsWrittenRight(c: Word, v: Word, cy: bool)
    requires IsBcdWord(c) && IsBcdWord(v)
    ensures SubtractAsWritten(c, v, cy) == SubtractWords(c, v, cy) <==> c < 0x100
  {
    assert IsBcd(0) && Value(0) == 0;
    hide TwoBytes, Lo, Hi, IsBcd, Value, Subtract6510, Subtracts;
    LowWord(c);
    Subtracts6510();
    WordsSubtract(Subtract6510, c, v, cy);
    WordsSubtract(Subtract6510, Lo(c), v, cy);
    if SubtractAsWritten(c, v, cy) == SubtractWords(c, v, cy) {
      assert WordValue(c) == WordValue(Lo(c));
      Hundreds(Value(Lo(c)), Value(Hi(c)), Value(Lo(c)), 0);
      ValueDigits(Hi(c), 0);
    }
    if c < 0x100 {
      assert Lo(c) == c by { WordParts(c); }
    }
  }

  /** 1000 - 1: the 65816 gets 999, the code as written gets 9999 and a borrow. */
  lemma SubtractAsWrittenWrong()
    ensures SubtractAsWritten(0x1000, 0x0001, true) == (0x9999, false)
    ensures SubtractWords(0x1000, 0x0001, true) == (0x0999, true)
  {
    hide SubtractWords, LowBorrow, ByteBorrow, ThirdBorrow, LastBorrow;
    FourDigits(0, 1, true);
    FourDigits(0x1000, 1, true);
    BorrowsBelow(0);
    BorrowsBelow(0x1000);
    assert SubtractAsWritten(0x1000, 0x0001, true) == SubtractWords(0, 1, true);
  }

  /** The digits of c - 1 for a c whose low digits are 0. */
  lemma BorrowsBelow(c: Word)
    requires c == 0 || c == 0x1000
    ensures LowBorrow(c, 1, true) == -1 && ByteBorrow(c, 1, true) == -1 && ThirdBorrow(c, 1, true) == -1
    ensures LastBorrow(c, 1, true) == (if c == 0 then -1 else 0)
  {
    assert Lo(c) == 0 && Hi(c) == c / 0x100 && Lo(1) == 1 && Hi(1) == 0;
  }

  // ---- chains of words ----

  /** The bytes of a number given in words, the least significant first. */
  function BytesOf(ws: seq<Word>): seq<Byte> {
    if ws == [] then [] else [Lo(ws[0]), Hi(ws[0])] + BytesOf(ws[1..])
  }

  function ChainWords(f: Unit, xs: seq<Word>, ys: seq<Word>, c: bool): (seq<Word>, bool)
    requires |xs| == |ys|
  {
    if xs == [] then ([], c)
    else
      var r := TwoBytes(f, xs[0], ys[0], c);
      var rest := ChainWords(f, xs[1..], ys[1..], r.1);
      ([r.0] + rest.0, rest.1)
  }

  lemma {:induction false} BytesLength(ws: seq<Word>)
    ensures |BytesOf(ws)| == 2 * |ws|
  {
    if ws != [] {
      BytesLength(ws[1..]);
    }
  }

  lemma ChainOne(f: Unit, x: Byte, xs: seq<Byte>, y: Byte, ys: seq<Byte>, c: bool)
    requires |xs| == |ys|
    ensures Chain(f, [x] + xs, [y] + ys, c)
         == ([f(x, y, c).0] + Chain(f, xs, ys, f(x, y, c).1).0, Chain(f, xs, ys, f(x, y, c).1).1)
  {
    assert ([x] + xs)[1..] == xs && ([y] + ys)[1..] == ys;
  }

  lemma ChainTwo(f: Unit, x0: Byte, x1: Byte, xs: seq<Byte>, y0: Byte, y1: Byte, ys: seq<Byte>, c: bool)
    requires |xs| == |ys|
    ensures var (a, carry) := f(x0, y0, c);
            var (b, out) := f(x1, y1, carry);
            Chain(f, [x0, x1] + xs, [y0, y1] + ys, c) == ([a, b] + Chain(f, xs, ys, out).0, Chain(f, xs, ys, out).1)
  {
    hide Chain;
    assert [x0, x1] + xs == [x0] + ([x1] + xs) && [y0, y1] + ys == [y0] + ([y1] + ys);
    ChainOne(f, x0, [x1] + xs, y0, [y1] + ys, c);
    var (a, carry) := f(x0, y0, c);
    var (b, out) := f(x1, y1, carry);
    ChainOne(f, x1, xs, y1, ys, carry);
    assert [a] + ([b] + Chain(f, xs, ys, out).0) == [a, b] + Chain(f, xs, ys, out).0;
  }

  /** A chain of 16-bit operations, of any length, is the chain of the 8-bit operations of twice that length. */
  lemma {:induction false} WordChainIsByteChain(f: Unit, xs: seq<Word>, ys: seq<Word>, c: bool)
    requires |xs| == |ys|
    ensures |BytesOf(xs)| == |BytesOf(ys)|
    ensures var (zs, out) := ChainWords(f, xs, ys, c);
            Chain(f, BytesOf(xs), BytesOf(ys), c) == (BytesOf(zs), out)
  {
    hide Lo, Hi;
    BytesLength(xs);
    BytesLength(ys);
    if xs != [] {
      BytesLength(xs[1..]);
      BytesLength(ys[1..]);
      ChainTwo(f, Lo(xs[0]), Hi(xs[0]), BytesOf(xs[1..]), Lo(ys[0]), Hi(ys[0]), BytesOf(ys[1..]), c);
      var r := TwoBytes(f, xs[0], ys[0], c);
      WordChainIsByteChain(f, xs[1..], ys[1..], r.1);
      var lo := f(Lo(xs[0]), Lo(ys[0]), c);
      PairParts(lo.0, f(Hi(xs[0]), Hi(ys[0]), lo.1).0);
      var rest := ChainWords(f, xs[1..], ys[1..], r.1);
      assert ([r.0] + rest.0)[1..] == rest.0;
    }
  }

  /** So they are exact: chains of 16-bit additions, and of subtractions that read the whole accumulator. */
  lemma WordChainsExact(xs: seq<Word>, ys: seq<Word>, c: bool)
    requires |xs| == |ys| && IsNumber(BytesOf(xs)) && IsNumber(BytesOf(ys))
    ensures var (zs, out) := ChainWords(Add6510, xs, ys, c);
            IsNumber(BytesOf(zs)) && Number(BytesOf(zs)) + CarryValue(2 * |xs|, out)
                                  == Number(BytesOf(xs)) + Number(BytesOf(ys)) + Num(c)
    ensures var (zs, out) := ChainWords(Subtract6510, xs, ys, c);
            IsNumber(BytesOf(zs)) && Number(BytesOf(zs)) - CarryValue(2 * |xs|, !out)
                                  == Number(BytesOf(xs)) - Number(BytesOf(ys)) - Num(!c)
  {
    hide Add6510, Subtract6510, Adds, Subtracts, IsNumber, Number, CarryValue, Chain, ChainWords, BytesOf;
    BytesLength(xs);
    BytesLength(ys);
    Adds6510();
    Subtracts6510();
    WordChainIsByteChain(Add6510, xs, ys, c);
    WordChainIsByteChain(Subtract6510, xs, ys, c);
    ChainAdds(Add6510, BytesOf(xs), BytesOf(ys), c);
    ChainSubtracts(Subtract6510, BytesOf(xs), BytesOf(ys), c);
  }
}
