/** What ADC and SBC of the 65C02 and of the 65816 in its 8-bit mode mean: the numbers of the 6510, with N and Z always
    those of the result. */
module LawsCmos {
  import opened Bits
  import opened Isa6510
  import opened Decimal
  import opened DecimalCmos
  import opened Laws6510

  /** Registers that hold the operands. */
  function Holding(a: Byte, st: Status): Regs {
    Regs(a, 0, 0, 0, st)
  }

  /** Sum, carry and overflow as on the 6510, for binary and for decimal numbers; N and Z say what the result is. */
  lemma AddMeans(a: Byte, v: Byte, st: Status)
    ensures var r, t := AddCmos(a, v, st).0, AddCmos(a, v, st).1;
            var sum, signed, tens := a + v + Num(st.c), Signed(a) + Signed(v) + Num(st.c), Value(a) + Value(v) + Num(st.c);
            && t == st.(n := r >= 128, z := r == 0, v := t.v, c := t.c)
            && (!st.d ==> r == sum % 256 && t.c == (sum > 255) && t.v == (signed < -128 || signed > 127))
            && (st.d && IsBcd(a) && IsBcd(v) ==>
                  IsBcd(r) && Value(r) == tens % 100 && t.c == (tens >= 100)
                  && t.v == ((a >= 128) == (v >= 128) && (a >= 128) != (80 <= tens < 160)))
  {
    SignBit(AddCmos(a, v, st).0);
    AddKeeps(a, v, st);
    if !st.d {
      AdcBinaryMeans(Holding(a, st), v);
    } else if IsBcd(a) && IsBcd(v) {
      AdcDecimalMeans(Holding(a, st), v);
    }
    hide Add, Bit7, IsBcd, Value, Signed;
  }

  lemma AddKeeps(a: Byte, v: Byte, st: Status)
    ensures var t := Add(a, v, st).1; t == st.(n := t.n, z := t.z, v := t.v, c := t.c)
  {
    hide Bit7, U8, DigitCorrected;
  }

  /** Both subtracters: C and V are those of the binary difference in both modes, N and Z say what the result is. */
  lemma SubtractMeans(a: Byte, v: Byte, st: Status)
    ensures Difference(a, v, st, Subtract65C02(a, v, st).0, Subtract65C02(a, v, st).1)
    ensures Difference(a, v, st, Subtract65816(a, v, st).0, Subtract65816(a, v, st).1)
  {
    DifferenceFlags(a, v, st, Subtract65C02(a, v, st).0);
    DifferenceFlags(a, v, st, Subtract65816(a, v, st).0);
    SameByte(a - v - Num(!st.c));
    if st.d && IsBcd(a) && IsBcd(v) {
      DecimalDifference(a, v, st);
    }
    hide SubtractFlags, Corrected65C02, SubtractDecimal, IsBcd, Value, Signed, U8;
  }

  lemma SameByte(diff: int)
    ensures U8(diff) == diff % 256
  {
  }

  lemma DecimalDifference(a: Byte, v: Byte, st: Status)
    requires st.d && IsBcd(a) && IsBcd(v)
    ensures var r, tens := Subtract(a, v, st).0, Value(a) - Value(v) - Num(!st.c);
            IsBcd(r) && Value(r) == tens % 100 && (a - v - Num(!st.c) >= 0 <==> tens >= 0)
            && Subtract65C02(a, v, st).0 == r && Subtract65816(a, v, st).0 == r
  {
    SbcMeans(Holding(a, st), v);
    SbcDecimalMeans(Holding(a, st), v);
    Agree65C02(a, v, st.c);
    AgreeWith6510(a, v, st.c);
    SameUnits(a, v, st);
    LowDifference(a, v, st.c);
    hide Subtract, Subtract65C02, Subtract65816, Subtract65C02Unit, Subtract65816Unit, Subtract6510, IsBcd, Value, Signed;
  }

  lemma LowDifference(a: Byte, v: Byte, c: bool)
    requires IsBcd(a) && IsBcd(v)
    ensures a % 16 - v % 16 - Num(!c) >= -10
  {
  }

  lemma SameUnits(a: Byte, v: Byte, st: Status)
    requires st.d
    ensures Subtract65C02(a, v, st).0 == Subtract65C02Unit(a, v, st.c).0
    ensures Subtract65816(a, v, st).0 == Subtract65816Unit(a, v, st.c).0
    ensures Subtract(a, v, st).0 == Subtract6510(a, v, st.c).0
  {
    hide Bit7, U8, SubtractDecimal, Corrected65C02;
  }

  predicate Difference(a: Byte, v: Byte, st: Status, r: Byte, t: Status) {
    var diff, signed, tens := a - v - Num(!st.c), Signed(a) - Signed(v) - Num(!st.c), Value(a) - Value(v) - Num(!st.c);
    && t == st.(n := r >= 128, z := r == 0, c := diff >= 0, v := signed < -128 || signed > 127)
    && (!st.d ==> r == diff % 256)
    && (st.d && IsBcd(a) && IsBcd(v) ==> IsBcd(r) && Value(r) == tens % 100 && (diff >= 0 <==> tens >= 0))
  }

  lemma DifferenceFlags(a: Byte, v: Byte, st: Status, r: Byte)
    ensures var diff, signed := a - v - Num(!st.c), Signed(a) - Signed(v) - Num(!st.c);
            SubtractFlags(a, v, st, r) == st.(n := r >= 128, z := r == 0, c := diff >= 0, v := signed < -128 || signed > 127)
  {
    SignBit(a);
    SignBit(v);
    SignBit(r);
    SignOfDifference(a - v - Num(!st.c));
    hide Bit7;
  }
}
