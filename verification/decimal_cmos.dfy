/** The adders and subtracters of vice/src/65c02core.c and vice/src/65816core.c. */
module DecimalCmos {
  import opened Bits
  import opened Isa6510
  import opened Macros6510
  import opened Decimal

  // ---- specifications ----

  /** The CMOS processors take N and Z from the result; everything else is as on the 6510. */
  function AddCmos(a: Byte, v: Byte, st: Status): (Byte, Status) {
    var r := Add(a, v, st);
    (r.0, SetNZ(r.1, r.0))
  }

  function SubtractFlags(a: Byte, v: Byte, st: Status, r: Byte): Status {
    var diff := a - v - Num(!st.c);
    SetNZ(st, r).(c := diff >= 0, v := Bit7(a) != Bit7(v) && Bit7(a) != Bit7(diff))
  }

  /** The 65C02 corrects the binary difference: a borrow out of the low digit may run through the high one again. */
  function Corrected65C02(a: Byte, v: Byte, c: bool): Byte {
    var diff := a - v - Num(!c);
    U8(diff - (if diff < 0 then 0x60 else 0) - (if a % 16 - v % 16 - Num(!c) < 0 then 6 else 0))
  }

  function Subtract65C02(a: Byte, v: Byte, st: Status): (Byte, Status) {
    var r := if st.d then Corrected65C02(a, v, st.c) else U8(a - v - Num(!st.c));
    (r, SubtractFlags(a, v, st, r))
  }

  /** The 65816 in 8-bit mode computes what the 6510 computes. */
  function Subtract65816(a: Byte, v: Byte, st: Status): (Byte, Status) {
    var r := if st.d then SubtractDecimal(a, v, st.c) else U8(a - v - Num(!st.c));
    (r, SubtractFlags(a, v, st, r))
  }

  // ---- vice/src/65c02core.c ----

  class Core65C02 {
    var a: Byte
    var p: RegP
    var flagN: Byte
    var flagZ: Byte
    var clk: int
    var pc: int

    constructor ()
    {
      a, p, flagN, flagZ, clk, pc := 0, RegP(false, false, false, false, false), 0, 0, 0, 0;
    }

    ghost function St(): Status
      reads `p, `flagN, `flagZ
    {
      LocalStatus(p, flagN, flagZ)
    }

    method AddDigits(value: Byte) returns (tmp: int, tmp2: int, ghost hi: int)
      ensures tmp % 16 == DigitCorrected(a % 16 + value % 16 + Num(p.c)) % 16
      ensures hi == a / 16 + value / 16 + Num(DigitCorrected(a % 16 + value % 16 + Num(p.c)) > 15)
      ensures tmp2 == 16 * hi && 0 <= hi < 32
    {
      tmp := a % 16 + value % 16 + Num(p.c);
      tmp2 := 16 * (a / 16) + 16 * (value / 16);
      hi := a / 16 + value / 16 + Num(tmp > 9);
      if tmp > 9 {
        tmp2 := tmp2 + 0x10;
        tmp := tmp + 6;
      }
    }

    /** The high digit, its correction and the flags that depend on it. */
    method HighDigit(value: Byte, sum: int, ghost hi: int) returns (tmp2: int)
      requires sum == 16 * hi && 0 <= hi < 32
      modifies `p
      ensures tmp2 % 16 == 0 && tmp2 / 16 == DigitCorrected(hi)
      ensures p == old(p).(c := DigitCorrected(hi) > 15, v := Bit7(a) == Bit7(value) && Bit7(a) != (hi % 16 >= 8))
    {
      tmp2 := sum;
      Nibbles(hi, 0);
      p := p.(v := Bit7(a) == Bit7(value) && Bit7(a) != Bit7(tmp2));
      if tmp2 > 0x90 {
        tmp2 := tmp2 + 0x60;
      }
      p := p.(c := tmp2 / 0x100 % 0x100 != 0);
    }

    method DecimalAdd(value: Byte, ghost st: Status) returns (tmp: Byte)
      requires Holds(p, st)
      modifies `p
      ensures tmp == AddDecimal(a, value, st).0 && Holds(p, AddDecimal(a, value, st).1)
    {
      hide AddDecimal, DigitCorrected, Bit7, U8;
      AddDecimalParts(a, value, st);
      var low, tmp2: int;
      ghost var hi: int;
      low, tmp2, hi := AddDigits(value);
      tmp2 := HighDigit(value, tmp2, hi);
      Nibbles(tmp2 / 16, low % 16);
      tmp := low % 16 + 16 * (tmp2 / 16 % 16);
    }

    method BinaryAdd(value: Byte, ghost st: Status) returns (tmp: int)
      requires Holds(p, st)
      modifies `p
      ensures U8(tmp) == AddBinary(a, value, st).0 && Holds(p, AddBinary(a, value, st).1)
    {
      hide Bit7;
      tmp := value + a + Num(p.c);
      p := p.(v := Bit7(a) == Bit7(value) && Bit7(a) != Bit7(tmp));
      p := p.(c := tmp > 0xff);
    }

    method Adc(value: Byte, clkInc: int, pcInc: int)
      modifies this
      ensures (a, St()) == AddCmos(old(a), value, old(St()))
      ensures clk == old(clk) + clkInc + Num(old(p).d) && pc == old(pc) + pcInc
    {
      hide AddDecimal, AddBinary, Bit7, U8;
      clk := clk + clkInc;
      var tmp: int;
      if p.d {
        tmp := DecimalAdd(value, St());
        clk := clk + 1;
        Mod8Byte(tmp);
      } else {
        tmp := BinaryAdd(value, St());
      }
      flagN := U8(tmp);
      flagZ := flagN;
      a := U8(tmp);
      pc := pc + pcInc;
    }

    /** The decimal correction of the difference, on an uint16_t. */
    method CorrectDifference(diff: int, value: Byte) returns (tmp: Word)
      requires diff == a - value - Num(!p.c)
      ensures U8(tmp) == Corrected65C02(a, value, p.c)
    {
      hide U16, U8;
      ghost var low := a % 16 - value % 16 - Num(!p.c);
      NegativeWord(diff);
      NegativeWord(low);
      Mod16(diff, -0x60);
      Mod16(diff - (if diff < 0 then 0x60 else 0), -6);
      tmp := U16(diff);
      if tmp > 0xff {
        tmp := U16(tmp - 0x60);
      }
      var tmp2 := U16(a % 16 - value % 16 + Num(p.c) - 1);
      if tmp2 > 0xff {
        tmp := U16(tmp - 6);
      }
      WordByte(diff - (if diff < 0 then 0x60 else 0) - (if low < 0 then 6 else 0));
    }

    method Sbc(src: Byte, clkInc: int, pcInc: int)
      modifies this
      ensures (a, St()) == Subtract65C02(old(a), src, old(St()))
      ensures clk == old(clk) + clkInc + Num(old(p).d) && pc == old(pc) + pcInc
    {
      hide Corrected65C02, U16, U8;
      clk := clk + clkInc;
      ghost var diff := a - src - Num(!p.c);
      var tmp := U16(a - src + Num(p.c) - 1);
      WordByte(a - src - Num(!p.c));
      p := p.(v := Bit7(a) != Bit7(tmp) && Bit7(a) != Bit7(src));
      if p.d {
        tmp := CorrectDifference(a - src + Num(p.c) - 1, src);
        clk := clk + 1;
      }
      p := p.(c := a + Num(p.c) - 1 >= src);
      flagN := U8(tmp);
      flagZ := flagN;
      a := U8(tmp);
      pc := pc + pcInc;
    }
  }

  /** A small negative number in an uint16_t. */
  lemma NegativeWord(v: int)
    requires -0x100 <= v <= 0xff
    ensures U16(v) > 0xff <==> v < 0
  {
  }

  lemma WordByte(v: int)
    ensures U8(U16(v)) == U8(v) && Bit7(U16(v)) == Bit7(v)
  {
  }

  lemma AddDecimalParts(a: Byte, v: Byte, st: Status)
    ensures var lo := DigitCorrected(a % 16 + v % 16 + Num(st.c));
            var hi := a / 16 + v / 16 + Num(lo > 15);
            var r := AddDecimal(a, v, st);
            r.0 == U8(16 * DigitCorrected(hi) + lo % 16)
            && r.1 == st.(z := r.1.z, n := r.1.n, c := DigitCorrected(hi) > 15,
                          v := Bit7(a) == Bit7(v) && Bit7(a) != (hi % 16 >= 8))
  {
    hide U8, DigitCorrected, Bit7;
  }

  // ---- exactness and agreement ----

  function AddUnit(a: Byte, v: Byte, c: bool): (Byte, bool) {
    var r := AddCmos(a, v, DecimalMode(c));
    (r.0, r.1.c)
  }

  function Subtract65C02Unit(a: Byte, v: Byte, c: bool): (Byte, bool) {
    var r := Subtract65C02(a, v, DecimalMode(c));
    (r.0, r.1.c)
  }

  function Subtract65816Unit(a: Byte, v: Byte, c: bool): (Byte, bool) {
    var r := Subtract65816(a, v, DecimalMode(c));
    (r.0, r.1.c)
  }

  /** Sums and carries are those of the 6510 on all inputs, decimal or not, and so are the differences of the 65816. */
  lemma AgreeWith6510(a: Byte, v: Byte, c: bool)
    ensures AddUnit(a, v, c) == Add6510(a, v, c)
    ensures Subtract65816Unit(a, v, c) == Subtract6510(a, v, c)
  {
    hide U8, Bit7, AddDecimal, SubtractDecimal;
  }

  /** The 65C02 differs from the 6510 exactly when the low digit's difference is below -10, which takes an operand
      that is not decimal. */
  lemma Agree65C02(a: Byte, v: Byte, c: bool)
    ensures Subtract65C02Unit(a, v, c) == Subtract6510(a, v, c) <==> a % 16 - v % 16 - Num(!c) >= -10
  {
    hide Bit7, SetNZ;
    var lo := a % 16 - v % 16 - Num(!c);
    var hi := a / 16 - v / 16 - Num(lo < 0);
    var h := if hi < 0 then hi - 6 else hi;
    assert a - v - Num(!c) == 16 * (hi + Num(lo < 0)) + lo;
    BorrowTwice(h, lo);
  }

  /** 0 - $0B: the 6510 gets $9F, the 65C02 $8F. */
  lemma Disagree65C02()
    ensures Subtract6510(0x00, 0x0b, true) == (0x9f, false) && Subtract65C02Unit(0x00, 0x0b, true) == (0x8f, false)
  {
    hide Bit7, SetNZ;
  }

  lemma BorrowTwice(h: int, lo: int)
    requires -16 <= lo <= 15 && -22 <= h <= 15
    ensures U8(16 * h + (if lo < 0 then lo - 6 else lo) % 16) == U8(16 * (h + Num(lo < 0)) + (if lo < 0 then lo - 6 else lo))
            <==> lo >= -10
  {
  }

  lemma AllUnitsExact()
    ensures Adds(AddUnit) && Subtracts(Subtract65C02Unit) && Subtracts(Subtract65816Unit)
  {
    hide AddUnit, Subtract65C02Unit, Subtract65816Unit, Add6510, Subtract6510, Value;
    forall a: Byte, v: Byte, c: bool | IsBcd(a) && IsBcd(v)
      ensures AddUnit(a, v, c) == Add6510(a, v, c)
      ensures Subtract65816Unit(a, v, c) == Subtract6510(a, v, c) == Subtract65C02Unit(a, v, c)
    {
      AgreeWith6510(a, v, c);
      Agree65C02(a, v, c);
    }
    Adds6510();
    Subtracts6510();
  }
}
