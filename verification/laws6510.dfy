/** What the instructions of the 6510 mean, said without the functions that the reference is written with: sums and
    carries, signs, addresses, targets and cycles. */
module Laws6510 {
  import opened Bits
  import opened Isa6510
  import opened OpcodeMatrix
  import opened Decimal

  /** A byte as a signed number. */
  function Signed(b: Byte): int {
    if b >= 128 then b - 256 else b
  }

  predicate Negative(b: Byte) {
    b >= 128
  }

  /** N and Z are those of r; the other flags are those of st. */
  predicate FlagsOf(st: Status, r: Byte, t: Status) {
    t.n == Negative(r) && t.z == (r == 0)
    && t.v == st.v && t.c == st.c && t.d == st.d && t.i == st.i && t.b == st.b
  }

  // ---- addition, subtraction and comparison ----

  lemma SignBit(b: Byte)
    ensures Bit7(b) == Negative(b)
  {
  }

  lemma SignOfSum(sum: int)
    requires 0 <= sum < 0x200
    ensures Bit7(sum) == Negative(U8(sum))
  {
  }

  /** Binary ADC: the carry is the ninth bit of the sum, and V says that the signed sum does not fit. */
  lemma AdcBinaryMeans(s: Regs, v: Byte)
    requires !s.st.d
    ensures var t, sum, signed := ReadEffect(ADC, s, v), s.a + v + Num(s.st.c), Signed(s.a) + Signed(v) + Num(s.st.c);
            t.a == sum % 256 && t.st.c == (sum > 255) && t.st.z == (sum % 256 == 0) && t.st.n == (sum % 256 >= 128)
            && t.st.v == (signed < -128 || signed > 127) && t.st.d == s.st.d && t.st.i == s.st.i && t.st.b == s.st.b
            && t.x == s.x && t.y == s.y && t.sp == s.sp
  {
    SignBit(s.a);
    SignBit(v);
    SignOfSum(s.a + v + Num(s.st.c));
    hide Bit7;
  }

  /** Decimal ADC of decimal numbers: sum and carry are decimal, Z is that of the binary sum, N and V are those of the
      sum before its tens are corrected. */
  lemma AdcDecimalMeans(s: Regs, v: Byte)
    requires s.st.d && IsBcd(s.a) && IsBcd(v)
    ensures var t, sum := ReadEffect(ADC, s, v), Value(s.a) + Value(v) + Num(s.st.c);
            IsBcd(t.a) && Value(t.a) == sum % 100 && t.st.c == (sum >= 100)
            && t.st.z == ((s.a + v + Num(s.st.c)) % 256 == 0) && t.st.n == (80 <= sum < 160)
            && t.st.v == (Negative(s.a) == Negative(v) && Negative(s.a) != (80 <= sum < 160))
            && t.st.d && t.st.i == s.st.i && t.st.b == s.st.b && t.x == s.x && t.y == s.y && t.sp == s.sp
  {
    Adds6510();
    var r := Add6510(s.a, v, s.st.c);
    SameDecimal(s.a, v, s.st);
    DecimalFlags(s.a, v, s.st);
    hide Add, Add6510, Negative, Value, IsBcd;
    Hundred(Value(r.0), r.1, Value(s.a) + Value(v) + Num(s.st.c));
  }

  lemma DecimalFlags(a: Byte, v: Byte, st: Status)
    requires st.d && IsBcd(a) && IsBcd(v)
    ensures var t, high := Add(a, v, st).1, 80 <= Value(a) + Value(v) + Num(st.c) < 160;
            t == st.(c := t.c, z := (a + v + Num(st.c)) % 256 == 0, n := high,
                     v := Negative(a) == Negative(v) && Negative(a) != high)
  {
    SignBit(a);
    SignBit(v);
    TensOfSum(a, v, st.c);
    hide Bit7, DigitCorrected, U8, Negative, Value, IsBcd;
  }

  lemma Hundred(r: int, c: bool, sum: int)
    requires 0 <= r <= 99 && r + 100 * Num(c) == sum
    ensures r == sum % 100 && c == (sum >= 100)
  {
  }

  lemma SameDecimal(a: Byte, v: Byte, st: Status)
    requires st.d
    ensures Add(a, v, st).0 == Add6510(a, v, st.c).0 && Add(a, v, st).1.c == Add6510(a, v, st.c).1
  {
    hide U8, Bit7, DigitCorrected;
  }

  lemma TensOfSum(a: Byte, v: Byte, c: bool)
    requires IsBcd(a) && IsBcd(v)
    ensures var lo := DigitCorrected(a % 16 + v % 16 + Num(c));
            var hi := a / 16 + v / 16 + Num(lo > 15);
            hi % 16 >= 8 <==> 80 <= Value(a) + Value(v) + Num(c) < 160
  {
  }

  /** SBC: in both modes all flags are those of the binary difference; a missing carry is a borrow. */
  lemma SbcMeans(s: Regs, v: Byte)
    ensures var t, diff, signed := ReadEffect(SBC, s, v), s.a - v - Num(!s.st.c), Signed(s.a) - Signed(v) - Num(!s.st.c);
            (!s.st.d ==> t.a == diff % 256) && t.st.c == (diff >= 0) && t.st.z == (diff % 256 == 0)
            && t.st.n == (diff % 256 >= 128) && t.st.v == (signed < -128 || signed > 127)
            && t.st.d == s.st.d && t.st.i == s.st.i && t.st.b == s.st.b && t.x == s.x && t.y == s.y && t.sp == s.sp
  {
    DifferenceMeans(s.a, v, s.st);
    SignOfDifference(s.a - v - Num(!s.st.c));
    hide Bit7, SubtractDecimal, SubtractStatus, Signed;
  }

  lemma DifferenceMeans(a: Byte, v: Byte, st: Status)
    ensures var t, diff, signed := SubtractStatus(a, v, st), a - v - Num(!st.c), Signed(a) - Signed(v) - Num(!st.c);
            t.c == (diff >= 0) && t.z == (diff % 256 == 0) && t.n == (diff % 256 >= 128)
            && t.v == (signed < -128 || signed > 127) && t.d == st.d && t.i == st.i && t.b == st.b
  {
    SignBit(a);
    SignBit(v);
    SignOfDifference(a - v - Num(!st.c));
    hide Bit7;
  }

  lemma SignOfDifference(diff: int)
    requires -0x100 <= diff < 0x100
    ensures Bit7(diff) == Negative(U8(diff)) && Bit7(U8(diff)) == Negative(U8(diff))
  {
  }

  /** In decimal mode differences of decimal numbers are decimal. */
  lemma SbcDecimalMeans(s: Regs, v: Byte)
    requires s.st.d && IsBcd(s.a) && IsBcd(v)
    ensures var t, diff := ReadEffect(SBC, s, v), Value(s.a) - Value(v) - Num(!s.st.c);
            IsBcd(t.a) && Value(t.a) == diff % 100 && t.st.c == (diff >= 0)
  {
    Subtracts6510();
    var r := Subtract6510(s.a, v, s.st.c);
    SameDifference(s.a, v, s.st);
    hide Subtract6510, Subtract;
    BorrowedHundred(Value(r.0), r.1, Value(s.a) - Value(v) - Num(!s.st.c));
  }

  lemma BorrowedHundred(r: int, c: bool, diff: int)
    requires 0 <= r <= 99 && r - 100 * Num(!c) == diff
    ensures r == diff % 100 && c == (diff >= 0)
  {
  }

  lemma SameDifference(a: Byte, v: Byte, st: Status)
    requires st.d
    ensures Subtract(a, v, st).0 == Subtract6510(a, v, st.c).0 && Subtract(a, v, st).1.c == Subtract6510(a, v, st.c).1
  {
    hide U8, Bit7, SubtractDecimal;
  }

  function Compared(op: ReadOp, s: Regs): Byte
    requires op == CMP || op == CPX || op == CPY
  {
    if op == CMP then s.a else if op == CPX then s.x else s.y
  }

  /** Comparisons: C says at least, Z says equal, N is the sign of the difference. */
  lemma CompareMeans(op: ReadOp, s: Regs, v: Byte)
    requires op == CMP || op == CPX || op == CPY
    ensures var t, r := ReadEffect(op, s, v), Compared(op, s);
            t.st.c == (r >= v) && t.st.z == (r == v) && t.st.n == ((r - v) % 256 >= 128)
            && t == s.(st := s.st.(c := t.st.c, z := t.st.z, n := t.st.n))
  {
    SignOfDifference(Compared(op, s) - v);
    hide Bit7;
  }

  // ---- loads, logic and their unofficial kin ----

  /** Loads: the register, N and Z. */
  lemma LoadMeans(s: Regs, v: Byte)
    ensures var t := ReadEffect(LDA, s, v); t == s.(a := v, st := t.st) && FlagsOf(s.st, v, t.st)
    ensures var t := ReadEffect(LDX, s, v); t == s.(x := v, st := t.st) && FlagsOf(s.st, v, t.st)
    ensures var t := ReadEffect(LDY, s, v); t == s.(y := v, st := t.st) && FlagsOf(s.st, v, t.st)
    ensures ReadEffect(NOP, s, v) == s
  {
    SignBit(v);
    hide Bit7;
  }

  /** The logical operations, bit by bit as on bit vectors. */
  lemma OraMeans(s: Regs, v: Byte)
    ensures var t := ReadEffect(ORA, s, v);
            t.a as bv8 == (s.a as bv8 | v as bv8) && t == s.(a := t.a, st := t.st) && FlagsOf(s.st, t.a, t.st)
  {
    hide Bit7, Or, SetNZ, FlagsOf;
    OperatorBits(s.a, v);
    FlagsSet(s.st, Or(s.a, v));
  }

  lemma AndMeans(s: Regs, v: Byte)
    ensures var t := ReadEffect(AND, s, v);
            t.a as bv8 == (s.a as bv8 & v as bv8) && t == s.(a := t.a, st := t.st) && FlagsOf(s.st, t.a, t.st)
  {
    hide Bit7, And, SetNZ, FlagsOf;
    OperatorBits(s.a, v);
    FlagsSet(s.st, And(s.a, v));
  }

  lemma EorMeans(s: Regs, v: Byte)
    ensures var t := ReadEffect(EOR, s, v);
            t.a as bv8 == (s.a as bv8 ^ v as bv8) && t == s.(a := t.a, st := t.st) && FlagsOf(s.st, t.a, t.st)
  {
    hide Bit7, Xor, SetNZ, FlagsOf;
    OperatorBits(s.a, v);
    FlagsSet(s.st, Xor(s.a, v));
  }

  lemma FlagsSet(st: Status, r: Byte)
    ensures FlagsOf(st, r, SetNZ(st, r))
  {
    SignBit(r);
    hide Bit7;
  }

  lemma OperatorBits(a: Byte, v: Byte)
    ensures Or(a, v) as bv8 == (a as bv8 | v as bv8) && And(a, v) as bv8 == (a as bv8 & v as bv8)
            && Xor(a, v) as bv8 == (a as bv8 ^ v as bv8)
  {
  }

  /** BIT: N and V are bits 7 and 6 of the operand, Z that A has none of its bits. */
  lemma BitMeans(s: Regs, v: Byte)
    ensures var t := ReadEffect(BIT, s, v);
            t == s.(st := s.st.(n := t.st.n, v := t.st.v, z := t.st.z))
            && t.st.n == (v >= 128) && t.st.v == (v % 128 >= 64) && t.st.z == (ReadEffect(AND, s, v).a == 0)
  {
    SignBit(v);
    assert And(v, s.a) == And(s.a, v) by { AndSwaps(v, s.a); }
    hide Bit7, And;
  }

  lemma AndSwaps(a: Byte, b: Byte)
    ensures And(a, b) == And(b, a)
  {
  }

  /** What two official instructions would do one after the other. */
  lemma UnofficialReads(s: Regs, v: Byte)
    ensures ReadEffect(LAX, s, v) == ReadEffect(LDX, ReadEffect(LDA, s, v), v)
    ensures ReadEffect(ANE, s, v) == ReadEffect(AND, s.(a := s.x), v)
  {
    hide Bit7, And;
  }

  lemma UnofficialShifts(s: Regs, v: Byte)
    ensures ReadEffect(ASR, s, v) == LsrA(ReadEffect(AND, s, v))
    ensures var t := ReadEffect(AND, s, v); ReadEffect(ANC, s, v) == t.(st := t.st.(c := Negative(t.a)))
  {
    SignBit(And(s.a, v));
    hide Bit7, Bit0, And;
  }

  function LsrA(s: Regs): Regs {
    ModifyEffect(LSR, s, s.a).(a := s.a / 2)
  }

  lemma UnofficialTransfers(s: Regs, v: Byte)
    ensures var t := ReadEffect(AND, s.(a := Or(s.a, 0xee)), v); ReadEffect(LXA, s, v) == t.(x := t.a)
    ensures var t := ReadEffect(AND, s.(a := s.sp), v); ReadEffect(LAS, s, v) == t.(x := t.a, sp := t.a)
    ensures var t := ReadEffect(CMP, s.(a := And(s.a, s.x)), v);
            ReadEffect(SBX, s, v) == s.(x := (t.a - v) % 256, st := t.st)
  {
    hide Bit7, And, Or;
  }

  /** ARR outside decimal mode: an AND and a rotation with C and V from bits 6 and 5 of the result. */
  lemma ArrBinaryMeans(s: Regs, v: Byte)
    requires !s.st.d
    ensures var t, anded := ReadEffect(ARR, s, v), ReadEffect(AND, s, v).a;
            2 * t.a + anded % 2 == anded + 256 * Num(s.st.c) && t == s.(a := t.a, st := t.st)
            && t.st.c == (t.a % 128 >= 64) && t.st.v == ((t.a % 128 >= 64) != (t.a % 64 >= 32))
            && t.st.n == s.st.c && t.st.z == (t.a == 0) && t.st.d == s.st.d && t.st.i == s.st.i && t.st.b == s.st.b
  {
    hide And;
    Rotated(And(s.a, v), s.st.c);
  }

  lemma Rotated(v: Byte, c: bool)
    ensures var r := v / 2 + 128 * Num(c);
            0 <= r < 256 && 2 * r + v % 2 == v + 256 * Num(c) && Bit7(r) == c && Negative(r) == c
  {
  }

  /** ARR in decimal mode: each nibble of the rotated byte gets 6 more if it came from a digit of 5 or more. */
  lemma ArrDecimalMeans(s: Regs, v: Byte)
    requires s.st.d
    ensures var t, anded := ReadEffect(ARR, s, v), ReadEffect(AND, s, v).a;
            var r := anded / 2 + 128 * Num(s.st.c);
            t.a % 16 == (r + (if anded % 16 >= 5 then 6 else 0)) % 16
            && t.a / 16 == (r / 16 + (if anded / 16 >= 5 then 6 else 0)) % 16
            && t.st == s.st.(c := anded / 16 >= 5, n := s.st.c, z := r == 0, v := (r % 128 >= 64) != (anded % 128 >= 64))
            && t == s.(a := t.a, st := t.st)
  {
    hide And;
    ArrNibbles(And(s.a, v), s.st);
    ArrFlags(And(s.a, v), s.st);
    hide RotateAnded;
  }

  lemma ArrNibbles(anded: Byte, st: Status)
    requires st.d
    ensures var r, t := anded / 2 + 128 * Num(st.c), RotateAnded(anded, st);
            t.0 % 16 == (r + (if anded % 16 >= 5 then 6 else 0)) % 16
            && t.0 / 16 == (r / 16 + (if anded / 16 >= 5 then 6 else 0)) % 16
  {
    Rotated(anded, st.c);
    OddDigit(anded % 16);
    OddDigit(anded / 16);
    FixedUp(anded / 2 + 128 * Num(st.c), anded % 16 >= 5, anded / 16 >= 5);
    hide Bit7, Bit6, Bit5, U8, Num, SetNZ;
  }

  lemma FixedUp(r: Byte, low: bool, high: bool)
    ensures var t := 16 * (if high then (r / 16 + 6) % 16 else r / 16) + (if low then (r + 6) % 16 else r % 16);
            t % 16 == (r + (if low then 6 else 0)) % 16 && t / 16 == (r / 16 + (if high then 6 else 0)) % 16
  {
  }

  lemma ArrFlags(anded: Byte, st: Status)
    requires st.d
    ensures var r, t := anded / 2 + 128 * Num(st.c), RotateAnded(anded, st).1;
            t == st.(c := anded / 16 >= 5, n := st.c, z := r == 0, v := (r % 128 >= 64) != (anded % 128 >= 64))
  {
    Rotated(anded, st.c);
    OddDigit(anded / 16);
    BitSix(anded / 2 + 128 * Num(st.c));
    BitSix(anded);
    hide Bit7, Bit6, Num;
  }

  lemma BitSix(v: Byte)
    ensures Bit6(v) == (v % 128 >= 64)
  {
  }

  lemma OddDigit(d: int)
    requires 0 <= d < 16
    ensures d + d % 2 > 5 <==> d >= 5
  {
  }

  // ---- shifts, rotations and counting ----

  /** What goes in comes out: the byte and the carry before and after a shift or a rotation hold the same bits. */
  lemma ShiftsLeft(s: Regs, v: Byte)
    ensures var r, t := Shifted(ASL, v, s.st.c), ModifyEffect(ASL, s, v);
            2 * v == r + 256 * Num(t.st.c) && Plainly(s, r, t)
    ensures var r, t := Shifted(ROL, v, s.st.c), ModifyEffect(ROL, s, v);
            2 * v + Num(s.st.c) == r + 256 * Num(t.st.c) && Plainly(s, r, t)
  {
    SignBit(U8(2 * v));
    SignBit(U8(2 * v + Num(s.st.c)));
    BitOut(v, s.st.c);
    hide Bit7, U8, Negative;
  }

  lemma BitOut(v: Byte, c: bool)
    ensures 2 * v == U8(2 * v) + 256 * Num(Bit7(v)) && 2 * v + Num(c) == U8(2 * v + Num(c)) + 256 * Num(Bit7(v))
  {
  }

  lemma ShiftsRight(s: Regs, v: Byte)
    ensures var r, t := Shifted(LSR, v, s.st.c), ModifyEffect(LSR, s, v);
            v == 2 * r + Num(t.st.c) && Plainly(s, r, t)
    ensures var r, t := Shifted(ROR, v, s.st.c), ModifyEffect(ROR, s, v);
            v + 256 * Num(s.st.c) == 2 * r + Num(t.st.c) && Plainly(s, r, t)
  {
    SignBit(v / 2);
    Rotated(v, s.st.c);
    LowBit(v);
    hide Bit7, Bit0;
  }

  lemma LowBit(v: Byte)
    ensures v == 2 * (v / 2) + Num(Bit0(v)) && v % 2 == Num(Bit0(v))
  {
  }

  /** N and Z of the byte written back; nothing but C besides. */
  predicate Plainly(s: Regs, r: Byte, t: Regs) {
    t == s.(st := t.st) && FlagsOf(s.st.(c := t.st.c), r, t.st)
  }

  lemma CountMeans(s: Regs, v: Byte)
    ensures var r, t := Shifted(INC, v, s.st.c), ModifyEffect(INC, s, v);
            r == (v + 1) % 256 && Plainly(s, r, t) && t.st.c == s.st.c
    ensures var r, t := Shifted(DEC, v, s.st.c), ModifyEffect(DEC, s, v);
            r == (v - 1) % 256 && Plainly(s, r, t) && t.st.c == s.st.c
  {
    SignBit(U8(v + 1));
    SignBit(U8(v - 1));
    hide Bit7;
  }

  /** The unofficial read-modify-write instructions are pairs of official ones. */
  lemma ShiftsWithOr(s: Regs, v: Byte)
    ensures Shifted(SLO, v, s.st.c) == Shifted(ASL, v, s.st.c)
    ensures ModifyEffect(SLO, s, v) == ReadEffect(ORA, ModifyEffect(ASL, s, v), Shifted(ASL, v, s.st.c))
  {
    hide U8, Bit7, Or;
  }

  lemma RotatesWithAnd(s: Regs, v: Byte)
    ensures Shifted(RLA, v, s.st.c) == Shifted(ROL, v, s.st.c)
    ensures ModifyEffect(RLA, s, v) == ReadEffect(AND, ModifyEffect(ROL, s, v), Shifted(ROL, v, s.st.c))
  {
    hide U8, Bit7, And;
  }

  lemma ShiftsWithXor(s: Regs, v: Byte)
    ensures Shifted(SRE, v, s.st.c) == Shifted(LSR, v, s.st.c)
    ensures ModifyEffect(SRE, s, v) == ReadEffect(EOR, ModifyEffect(LSR, s, v), Shifted(LSR, v, s.st.c))
  {
    hide U8, Bit7, Bit0, Xor;
  }

  lemma CountsWithComparison(s: Regs, v: Byte)
    ensures Shifted(DCP, v, s.st.c) == Shifted(DEC, v, s.st.c)
    ensures ModifyEffect(DCP, s, v) == ReadEffect(CMP, ModifyEffect(DEC, s, v), Shifted(DEC, v, s.st.c))
  {
    hide U8, Bit7;
  }

  lemma RotatesWithAddition(s: Regs, v: Byte)
    ensures Shifted(RRA, v, s.st.c) == Shifted(ROR, v, s.st.c)
    ensures ModifyEffect(RRA, s, v) == ReadEffect(ADC, ModifyEffect(ROR, s, v), Shifted(ROR, v, s.st.c))
  {
    var r := Shifted(ROR, v, s.st.c);
    SumForgets(s.a, r, s.st.(c := ShiftedOut(ROR, v, s.st.c)), r);
    hide Add, SetNZ, Bit0;
  }

  /** N and Z before an addition or a subtraction do not matter. */
  lemma SumForgets(a: Byte, v: Byte, st: Status, r: Byte)
    ensures Add(a, v, SetNZ(st, r)) == Add(a, v, st) && Subtract(a, v, SetNZ(st, r)) == Subtract(a, v, st)
  {
    hide U8, Bit7, DigitCorrected, SubtractDecimal;
  }

  lemma CountsWithSubtraction(s: Regs, v: Byte)
    ensures Shifted(ISB, v, s.st.c) == Shifted(INC, v, s.st.c)
    ensures ModifyEffect(ISB, s, v) == ReadEffect(SBC, ModifyEffect(INC, s, v), Shifted(INC, v, s.st.c))
  {
    var r := Shifted(INC, v, s.st.c);
    SumForgets(s.a, r, s.st, r);
    hide Subtract, SetNZ, U8;
  }

  // ---- registers ----

  /** Transfers, counting of index registers and flags. */
  lemma TransferMeans(s: Regs)
    ensures var t := TransferEffect(TAX, s); t == s.(x := s.a, st := t.st) && FlagsOf(s.st, s.a, t.st)
    ensures var t := TransferEffect(TAY, s); t == s.(y := s.a, st := t.st) && FlagsOf(s.st, s.a, t.st)
    ensures var t := TransferEffect(TXA, s); t == s.(a := s.x, st := t.st) && FlagsOf(s.st, s.x, t.st)
    ensures var t := TransferEffect(TYA, s); t == s.(a := s.y, st := t.st) && FlagsOf(s.st, s.y, t.st)
    ensures var t := TransferEffect(TSX, s); t == s.(x := s.sp, st := t.st) && FlagsOf(s.st, s.sp, t.st)
    ensures TransferEffect(TXS, s) == s.(sp := s.x) && TransferEffect(NOPI, s) == s
  {
    SignBit(s.a);
    SignBit(s.x);
    SignBit(s.y);
    SignBit(s.sp);
    hide Bit7;
  }

  lemma IndexMeans(s: Regs)
    ensures var t := TransferEffect(INX, s); t == s.(x := (s.x + 1) % 256, st := t.st) && FlagsOf(s.st, t.x, t.st)
    ensures var t := TransferEffect(INY, s); t == s.(y := (s.y + 1) % 256, st := t.st) && FlagsOf(s.st, t.y, t.st)
    ensures var t := TransferEffect(DEX, s); t == s.(x := (s.x - 1) % 256, st := t.st) && FlagsOf(s.st, t.x, t.st)
    ensures var t := TransferEffect(DEY, s); t == s.(y := (s.y - 1) % 256, st := t.st) && FlagsOf(s.st, t.y, t.st)
  {
    SignBit(U8(s.x + 1));
    SignBit(U8(s.y + 1));
    SignBit(U8(s.x - 1));
    SignBit(U8(s.y - 1));
    hide Bit7;
  }

  lemma FlagMeans(s: Regs)
    ensures TransferEffect(CLC, s) == s.(st := s.st.(c := false)) && TransferEffect(SEC, s) == s.(st := s.st.(c := true))
    ensures TransferEffect(CLI, s) == s.(st := s.st.(i := false)) && TransferEffect(SEI, s) == s.(st := s.st.(i := true))
    ensures TransferEffect(CLD, s) == s.(st := s.st.(d := false)) && TransferEffect(SED, s) == s.(st := s.st.(d := true))
    ensures TransferEffect(CLV, s) == s.(st := s.st.(v := false))
  {
  }

  /** The status byte: N V 1 B D I Z C from bit 7 down. */
  lemma StatusByte(st: Status)
    ensures Packed(st) == 128 * Num(st.n) + 64 * Num(st.v) + 32 + 16 * Num(st.b) + 8 * Num(st.d) + 4 * Num(st.i)
                          + 2 * Num(st.z) + Num(st.c)
  {
    ByteSum(st.n, st.v, true, st.b, st.d, st.i, st.z, st.c);
  }

  /** And back: N V - B D I Z C. */
  lemma StatusBits(n: bool, v: bool, unused: bool, b: bool, d: bool, i: bool, z: bool, c: bool)
    ensures Unpacked(128 * Num(n) + 64 * Num(v) + 32 * Num(unused) + 16 * Num(b) + 8 * Num(d) + 4 * Num(i) + 2 * Num(z) + Num(c))
         == Status(n, v, b, d, i, z, c)
  {
    ByteSum(n, v, unused, b, d, i, z, c);
    ByteBits(n, v, unused, b, d, i, z, c);
    hide ByteOf, Num, Bit0, Bit1, Bit2, Bit3, Bit4, Bit5, Bit6, Bit7;
  }

  // ---- addresses ----

  function ByteAt(s: Cpu, n: int): Byte {
    Peek(s.mem, (s.pc + n) % 65536)
  }

  /** The operand bytes of the instruction at the program counter, as a number. */
  function OperandWord(s: Cpu): int {
    ByteAt(s, 1) + 256 * ByteAt(s, 2)
  }

  /** The pointer in the zero page at z. */
  function Pointer(s: Cpu, z: int): int {
    Peek(s.mem, z % 256) + 256 * Peek(s.mem, (z + 1) % 256)
  }

  /** Where an instruction finds its byte. */
  function Located(mode: Mode, s: Cpu): int {
    match mode
    case Immediate => (s.pc + 1) % 65536
    case Zero => ByteAt(s, 1)
    case ZeroX => (ByteAt(s, 1) + s.r.x) % 256
    case ZeroY => (ByteAt(s, 1) + s.r.y) % 256
    case Absolute => OperandWord(s)
    case AbsoluteX => (OperandWord(s) + s.r.x) % 65536
    case AbsoluteY => (OperandWord(s) + s.r.y) % 65536
    case IndirectX => Pointer(s, ByteAt(s, 1) + s.r.x)
    case IndirectY => (Pointer(s, ByteAt(s, 1)) + s.r.y) % 65536
  }

  /** Indexing gives a carry into the high byte of the address. */
  predicate LeavesPage(mode: Mode, s: Cpu) {
    match mode
    case AbsoluteX => ByteAt(s, 1) + s.r.x > 255
    case AbsoluteY => ByteAt(s, 1) + s.r.y > 255
    case IndirectY => Peek(s.mem, ByteAt(s, 1)) + s.r.y > 255
    case _ => false
  }

  function Behind(s: Cpu, mode: Mode): int {
    (s.pc + (if mode in {Absolute, AbsoluteX, AbsoluteY} then 3 else 2)) % 65536
  }

  lemma ZeroWordMeans(s: Cpu, z: int)
    ensures ZeroWord(s.mem, z) == Pointer(s, z)
  {
  }

  lemma Locates(mode: Mode, s: Cpu)
    ensures mode != Immediate ==> Ea(mode, s, ByteAt(s, 1), ByteAt(s, 2)) == Located(mode, s)
    ensures Operand(mode, s, ByteAt(s, 1), ByteAt(s, 2)) == Peek(s.mem, Located(mode, s))
  {
    hide ZeroWord, Pointer;
    ZeroWordMeans(s, ByteAt(s, 1));
    ZeroWordMeans(s, ByteAt(s, 1) + s.r.x);
  }

  lemma ZeroPageLow(s: Cpu, z: Byte)
    ensures Lo(ZeroWord(s.mem, z)) == Peek(s.mem, z)
  {
    PairParts(Peek(s.mem, z), Peek(s.mem, U8(z + 1)));
    Mod8Byte(z);
    hide Pair, Lo, U8;
  }

  lemma PageLeft(mode: Mode, s: Cpu)
    ensures Crosses(mode, s, ByteAt(s, 1), ByteAt(s, 2)) == LeavesPage(mode, s)
  {
    PairParts(ByteAt(s, 1), ByteAt(s, 2));
    ZeroPageLow(s, ByteAt(s, 1));
    hide Pair, Lo, ZeroWord;
  }

  lemma ReadExec(op: ReadOp, mode: Mode, s: Cpu, lo: Byte, hi: Byte)
    ensures Exec(Read(op, mode), s, lo, hi)
         == Advance(s.(r := ReadEffect(op, s.r, Operand(mode, s, lo, hi))), Length(mode),
                    ReadCycles(mode, Crosses(mode, s, lo, hi)))
  {
    hide Advance, ReadEffect, Operand, Length, ReadCycles, Crosses;
  }

  lemma Behinds(mode: Mode, s: Cpu)
    ensures U16(s.pc + Length(mode)) == Behind(s, mode)
  {
  }

  lemma ReadTime(mode: Mode, s: Cpu)
    ensures ReadCycles(mode, LeavesPage(mode, s)) == ReadCycles(mode, false) + Num(LeavesPage(mode, s))
  {
  }

  /** An instruction that reads takes its byte from where its mode says and changes registers only. */
  lemma ReadMeans(s: Cpu)
    requires Decode(Opcode(s)).Read?
    ensures var i := Decode(Opcode(s));
            Step(s, false) == s.(r := ReadEffect(i.r, s.r, Peek(s.mem, Located(i.rmode, s))), pc := Behind(s, i.rmode),
                                 clk := s.clk + Cycles(i) + Num(LeavesPage(i.rmode, s)))
  {
    var op, mode := Decode(Opcode(s)).r, Decode(Opcode(s)).rmode;
    Locates(mode, s);
    PageLeft(mode, s);
    ReadExec(op, mode, s, ByteAt(s, 1), ByteAt(s, 2));
    Behinds(mode, s);
    ReadTime(mode, s);
    hide Decode, Exec, ReadEffect, Operand, Located, Crosses, LeavesPage, Peek, Behind, Length, ReadCycles;
  }

  /** Nothing is written into an instruction's own operand, and the unstable stores are indexed. */
  lemma ModesDecoded(op: Byte)
    ensures var i := Decode(op);
            (i.Write? ==> i.wmode != Immediate) && (i.Modify? ==> i.mmode != Immediate)
            && (i.Unstable? ==> i.umode in {AbsoluteX, AbsoluteY, IndirectY})
  {
    OpcodeFields(op);
    FieldModes(op / 0x20, op / 4 % 8, op % 4);
  }

  lemma FieldModes(aaa: int, bbb: int, cc: int)
    requires 0 <= aaa <= 7 && 0 <= bbb <= 7 && 0 <= cc <= 3
    ensures var i := if cc == 0 then Decode00(aaa, bbb) else if cc == 1 then Decode01(aaa, Mode01(bbb))
                     else if cc == 2 then Decode10(aaa, bbb) else Decode11(aaa, bbb);
            (i.Write? ==> i.wmode != Immediate) && (i.Modify? ==> i.mmode != Immediate)
            && (i.Unstable? ==> i.umode in {AbsoluteX, AbsoluteY, IndirectY})
  {
  }

  /** One that writes writes there, and changes nothing but memory. */
  lemma WriteMeans(s: Cpu)
    requires Decode(Opcode(s)).Write?
    ensures var i := Decode(Opcode(s));
            Step(s, false) == s.(mem := s.mem[Located(i.wmode, s) := Kept(i.w, s.r)], pc := Behind(s, i.wmode),
                                 clk := s.clk + Cycles(i))
  {
    var op, mode := Decode(Opcode(s)).w, Decode(Opcode(s)).wmode;
    ModesDecoded(Opcode(s));
    Locates(mode, s);
    WriteExec(op, mode, s, ByteAt(s, 1), ByteAt(s, 2));
    Behinds(mode, s);
    Keeps(op, s.r);
    hide Decode, Exec, Ea, Located, Peek, Behind, Length, WriteCycles, Stored, Kept;
  }

  function Masked8(a: Byte, b: Byte): Byte {
    (a as bv8 & b as bv8) as int
  }

  function Kept(op: WriteOp, s: Regs): Byte {
    if op == STA then s.a else if op == STX then s.x else if op == STY then s.y else Masked8(s.a, s.x)
  }

  lemma Keeps(op: WriteOp, s: Regs)
    ensures Stored(op, s) == Kept(op, s)
  {
  }

  /** One that reads, changes and writes does so in place. */
  lemma ModifyMeans(s: Cpu)
    requires Decode(Opcode(s)).Modify?
    ensures var i := Decode(Opcode(s));
            var v := Peek(s.mem, Located(i.mmode, s));
            Step(s, false) == s.(r := ModifyEffect(i.m, s.r, v),
                                 mem := s.mem[Located(i.mmode, s) := Shifted(i.m, v, s.r.st.c)],
                                 pc := Behind(s, i.mmode), clk := s.clk + Cycles(i))
  {
    hide Decode, Exec, Ea, Located, Peek, Behind, Length, WriteCycles, ModifyEffect, Shifted;
    var op, mode := Decode(Opcode(s)).m, Decode(Opcode(s)).mmode;
    ModesDecoded(Opcode(s));
    Locates(mode, s);
    ModifyExec(op, mode, s, ByteAt(s, 1), ByteAt(s, 2));
    Behinds(mode, s);
    StepExec(s);
  }

  lemma StepExec(s: Cpu)
    ensures Step(s, false) == Exec(Decode(Opcode(s)), s, ByteAt(s, 1), ByteAt(s, 2))
  {
    hide Decode, Exec;
  }

  /** On the accumulator the byte is A. */
  lemma AccumulatorMeans(s: Cpu)
    requires Decode(Opcode(s)).Accumulator?
    ensures var op := Decode(Opcode(s)).acc;
            Step(s, false) == s.(r := ModifyEffect(op, s.r, s.r.a).(a := Shifted(op, s.r.a, s.r.st.c)),
                                 pc := (s.pc + 1) % 65536, clk := s.clk + 2)
  {
    hide Decode, ModifyEffect, Shifted;
  }

  /** An instruction on registers touches no memory and takes two cycles. */
  lemma ImpliedMeans(s: Cpu)
    requires Decode(Opcode(s)).Implied?
    ensures var op := Decode(Opcode(s)).i;
            op !in {PHA, PHP, PLA, PLP} ==>
              Step(s, false) == s.(r := TransferEffect(op, s.r), pc := (s.pc + 1) % 65536, clk := s.clk + 2)
  {
    hide Decode, Exec, TransferEffect;
    var op := Decode(Opcode(s)).i;
    StepExec(s);
    ImpliedExec(op, s, ByteAt(s, 1), ByteAt(s, 2));
    if op !in {PHA, PHP, PLA, PLP} {
      ImpliedTransfer(op, s);
    }
    hide ImpliedEffect;
  }

  lemma ImpliedTransfer(op: ImpliedOp, s: Cpu)
    requires op !in {PHA, PHP, PLA, PLP}
    ensures ImpliedEffect(op, s) == s.(r := TransferEffect(op, s.r)) && ImpliedCycles(op) == 2
  {
    hide TransferEffect;
  }

  /** PHA and PHP put a byte below the others, PLA and PLP take it back. */
  lemma PushMeans(s: Cpu)
    ensures Opcode(s) == 0x48 ==> Pushes(s, s.r.a)
  {
    hide Decode, Exec, Packed;
    Decoded4High();
    ImpliedExec(PHA, s, ByteAt(s, 1), ByteAt(s, 2));
  }

  lemma PushStatusMeans(s: Cpu)
    ensures Opcode(s) == 0x08 ==> Pushes(s, Packed(s.r.st.(b := true)))
  {
    hide Decode, Exec, Packed;
    Decoded0High();
    ImpliedExec(PHP, s, ByteAt(s, 1), ByteAt(s, 2));
  }

  lemma PullMeans(s: Cpu)
    ensures Opcode(s) == 0x68 ==> Pulls(s, ReadEffect(LDA, s.r, Peek(s.mem, 256 + (s.r.sp + 1) % 256)))
  {
    Decoded6High();
    ImpliedExec(PLA, s, ByteAt(s, 1), ByteAt(s, 2));
    hide Decode, Exec, SetNZ;
  }

  lemma PullStatusMeans(s: Cpu)
    ensures Opcode(s) == 0x28 ==> Pulls(s, s.r.(st := Unpacked(Peek(s.mem, 256 + (s.r.sp + 1) % 256))))
  {
    Decoded2High();
    ImpliedExec(PLP, s, ByteAt(s, 1), ByteAt(s, 2));
    hide Decode, Exec, Unpacked;
  }

  predicate Pushes(s: Cpu, v: Byte) {
    Step(s, false) == s.(mem := s.mem[256 + s.r.sp := v], r := s.r.(sp := (s.r.sp - 1) % 256),
                         pc := (s.pc + 1) % 65536, clk := s.clk + 3)
  }

  predicate Pulls(s: Cpu, r: Regs) {
    Step(s, false) == s.(r := r.(sp := (s.r.sp + 1) % 256), pc := (s.pc + 1) % 65536, clk := s.clk + 4)
  }

  /** What SHA, SHX, SHY and SHS start from. */
  function Unmasked(op: UnstableOp, s: Regs): Byte {
    if op == SHX then s.x else if op == SHY then s.y else Masked8(s.a, s.x)
  }

  /** The high byte of the address before indexing. */
  function BaseHigh(mode: Mode, s: Cpu): Byte {
    if mode == IndirectY then Peek(s.mem, (ByteAt(s, 1) + 1) % 256) else ByteAt(s, 2)
  }

  /** The four unstable stores mask their byte with the high byte of the address plus one; when the page is left the stored
      byte is the high byte of the address as well. */
  lemma UnstableMeans(s: Cpu)
    requires Decode(Opcode(s)).Unstable?
    ensures var i := Decode(Opcode(s));
            var v := Masked8(Unmasked(i.u, s.r), (BaseHigh(i.umode, s) + 1) % 256);
            Step(s, false) == s.(mem := s.mem[if LeavesPage(i.umode, s) then Located(i.umode, s) % 256 + 256 * v
                                              else Located(i.umode, s) := v],
                                 r := if i.u == SHS then s.r.(sp := Masked8(s.r.a, s.r.x)) else s.r,
                                 pc := Behind(s, i.umode), clk := s.clk + Cycles(i))
  {
    hide Decode, Exec, Located, LeavesPage, Behind, Length, WriteCycles, And, Unmasked, BaseHigh, UnstableStore, UnstableValue,
      Masked8;
    var op, mode := Decode(Opcode(s)).u, Decode(Opcode(s)).umode;
    StepExec(s);
    UnstableExec(op, mode, s, ByteAt(s, 1), ByteAt(s, 2));
    ModesDecoded(Opcode(s));
    StoresUnstable(op, mode, s, false);
    Behinds(mode, s);
  }

  lemma UnstableExec(op: UnstableOp, mode: Mode, s: Cpu, lo: Byte, hi: Byte)
    ensures Exec(Unstable(op, mode), s, lo, hi)
         == Advance(UnstableStore(op, mode, s, lo, hi, false), Length(mode), WriteCycles(mode))
  {
    hide UnstableStore, Advance;
  }

  /** When another chip has stolen the cycle before the store the byte is not masked, but the address still is. */
  lemma StoresUnstable(op: UnstableOp, mode: Mode, s: Cpu, stolen: bool)
    requires mode in {AbsoluteX, AbsoluteY, IndirectY}
    ensures var v := Masked8(Unmasked(op, s.r), (BaseHigh(mode, s) + 1) % 256);
            UnstableStore(op, mode, s, ByteAt(s, 1), ByteAt(s, 2), stolen)
            == s.(mem := s.mem[if LeavesPage(mode, s) then Located(mode, s) % 256 + 256 * v else Located(mode, s) :=
                               if stolen then Unmasked(op, s.r) else v],
                  r := if op == SHS then s.r.(sp := Masked8(s.r.a, s.r.x)) else s.r)
  {
    hide Ea, Located, Crosses, LeavesPage, And, UnstableValue, UnstableSource, Unmasked, BaseHigh, Masked8, Hi, Base;
    Locates(mode, s);
    PageLeft(mode, s);
    SourceMeans(op, s.r);
    MaskMeans(op, mode, s);
    LowPart(Located(mode, s));
  }

  lemma LowPart(w: int)
    ensures Lo(w) == w % 256
  {
  }

  lemma MaskMeans(op: UnstableOp, mode: Mode, s: Cpu)
    ensures And(s.r.a, s.r.x) == Masked8(s.r.a, s.r.x)
    ensures mode in {AbsoluteX, AbsoluteY, IndirectY} ==>
              UnstableValue(op, s.r, Hi(Base(mode, s, ByteAt(s, 1), ByteAt(s, 2))))
              == Masked8(Unmasked(op, s.r), (BaseHigh(mode, s) + 1) % 256)
  {
    SourceMeans(op, s.r);
    if mode in {AbsoluteX, AbsoluteY, IndirectY} {
      BaseMeans(mode, s);
    }
    hide UnstableSource, Unmasked, BaseHigh, Hi, Base;
  }

  lemma SourceMeans(op: UnstableOp, r: Regs)
    ensures UnstableSource(op, r) == Unmasked(op, r)
  {
  }

  lemma BaseMeans(mode: Mode, s: Cpu)
    requires mode in {AbsoluteX, AbsoluteY, IndirectY}
    ensures Hi(Base(mode, s, ByteAt(s, 1), ByteAt(s, 2))) == BaseHigh(mode, s)
  {
    PairParts(ByteAt(s, 1), ByteAt(s, 2));
    PairParts(Peek(s.mem, U8(ByteAt(s, 1))), Peek(s.mem, U8(ByteAt(s, 1) + 1)));
    hide Pair, Hi, Peek;
  }

  // ---- targets ----

  lemma SamePage(lo: Byte, hi: Byte)
    ensures Pair(U8(lo + 1), hi) == (lo + 256 * hi) / 256 * 256 + (lo + 256 * hi + 1) % 256
  {
  }

  /** Jumps go to the word behind the opcode, or to the word that it points to, whose high byte is in the same page. */
  lemma JumpMeans(s: Cpu)
    requires Opcode(s) == 0x4c
    ensures Step(s, false) == s.(pc := OperandWord(s), clk := s.clk + 3)
  {
    hide Decode;
    Decoded4High();
  }

  lemma IndirectJumpMeans(s: Cpu)
    requires Opcode(s) == 0x6c
    ensures var p := OperandWord(s);
            Step(s, false)
            == s.(pc := Peek(s.mem, p) + 256 * Peek(s.mem, p / 256 * 256 + (p + 1) % 256), clk := s.clk + 5)
  {
    hide Decode, Exec, Step, Peek;
    Decoded6High();
    StepExec(s);
    JumpExec(s, ByteAt(s, 1), ByteAt(s, 2));
    SamePage(ByteAt(s, 1), ByteAt(s, 2));
  }

  lemma JumpExec(s: Cpu, lo: Byte, hi: Byte)
    ensures Exec(JMPI, s, lo, hi)
         == s.(pc := Pair(Peek(s.mem, Pair(lo, hi)), Peek(s.mem, Pair(U8(lo + 1), hi))), clk := s.clk + 5)
  {
    hide Peek, Pair, U8;
  }

  /** JSR goes to the word behind the opcode, the high byte as it is when the return address has been pushed. */
  lemma CallGoesTo(s: Cpu)
    requires Opcode(s) == 0x20
    ensures var t := Step(s, false);
            t.pc == ByteAt(s, 1) + 256 * Peek(t.mem, (s.pc + 2) % 65536) && t.r == s.r.(sp := (s.r.sp - 2) % 256)
            && t.clk == s.clk + 6
    ensures ((s.pc + 2) % 65536 < 0x100 || (s.pc + 2) % 65536 > 0x1ff) ==> Step(s, false).pc == OperandWord(s)
  {
    hide Decode;
    Decoded2Low();
    Mod8(s.r.sp - 1, -1);
  }

  /** The address of its last byte is on the stack, the high byte first. */
  lemma CallStacks(s: Cpu)
    requires Opcode(s) == 0x20
    ensures var t, ret := Step(s, false), (s.pc + 2) % 65536;
            t.mem == s.mem[256 + s.r.sp := ret / 256][256 + (s.r.sp - 1) % 256 := ret % 256]
  {
    hide Decode, Exec, Peek;
    Decoded2Low();
    StepExec(s);
    CallExec(s, ByteAt(s, 1), ByteAt(s, 2));
  }

  lemma CallExec(s: Cpu, lo: Byte, hi: Byte)
    ensures Exec(JSR, s, lo, hi) == CallEffect(s, lo)
  {
    hide CallEffect;
  }

  /** RTS goes behind the address on the stack, RTI to it, with the flags that are below it. */
  lemma ReturnMeans(s: Cpu)
    requires Opcode(s) == 0x60
    ensures Step(s, false)
         == s.(pc := (OnStack(s, 1) + 256 * OnStack(s, 2) + 1) % 65536, r := s.r.(sp := (s.r.sp + 2) % 256), clk := s.clk + 6)
  {
    hide Decode, Exec, Peek;
    Decoded6Low();
    StepExec(s);
    ReturnExec(s, ByteAt(s, 1), ByteAt(s, 2));
  }

  lemma ReturnExec(s: Cpu, lo: Byte, hi: Byte)
    ensures Exec(RTS, s, lo, hi) == ReturnEffect(s)
  {
    hide ReturnEffect;
  }

  lemma InterruptReturnMeans(s: Cpu)
    requires Opcode(s) == 0x40
    ensures Step(s, false)
         == s.(pc := OnStack(s, 2) + 256 * OnStack(s, 3), r := s.r.(st := Unpacked(OnStack(s, 1)), sp := (s.r.sp + 3) % 256),
               clk := s.clk + 6)
  {
    hide Decode, Exec, Peek, Unpacked;
    Decoded4Low();
    StepExec(s);
    RtiExec(s, ByteAt(s, 1), ByteAt(s, 2));
  }

  /** The n-th byte from the top of the stack. */
  function OnStack(s: Cpu, n: int): Byte {
    Peek(s.mem, 256 + (s.r.sp + n) % 256)
  }

  /** Which flag a branch looks at, and what it must be. */
  predicate Wants(op: Byte, st: Status) {
    match op
    case 0x10 => !st.n
    case 0x30 => st.n
    case 0x50 => !st.v
    case 0x70 => st.v
    case 0x90 => !st.c
    case 0xb0 => st.c
    case 0xd0 => !st.z
    case _ => st.z
  }

  predicate IsBranch(op: Byte) {
    op % 32 == 16
  }

  /** Branches go to a signed distance from the next instruction, and take a cycle more when taken and another one when
      that is in another page. */
  lemma BranchMeans(s: Cpu)
    requires IsBranch(Opcode(s))
    ensures var next, target := (s.pc + 2) % 65536, (s.pc + 2 + Signed(ByteAt(s, 1))) % 65536;
            Step(s, false)
            == if Wants(Opcode(s), s.r.st)
               then s.(pc := target, clk := s.clk + (if next / 256 == target / 256 then 3 else 4))
               else s.(pc := next, clk := s.clk + 2)
  {
    hide Decode, Exec, Step, Wants, FlagOf, BranchEffect, Signed, Peek;
    var i := Decode(Opcode(s));
    BranchDecoded(Opcode(s));
    StepExec(s);
    BranchExec(i.flag, i.taken, s, ByteAt(s, 1), ByteAt(s, 2));
    BranchGoesTo(i.flag, i.taken, s, ByteAt(s, 1));
  }

  lemma BranchExec(flag: Flag, taken: bool, s: Cpu, lo: Byte, hi: Byte)
    ensures Exec(Branch(flag, taken), s, lo, hi) == BranchEffect(s, flag, taken, lo)
  {
    hide BranchEffect;
  }

  lemma BranchGoesTo(flag: Flag, taken: bool, s: Cpu, lo: Byte)
    ensures var next, target := (s.pc + 2) % 65536, (s.pc + 2 + Signed(lo)) % 65536;
            BranchEffect(s, flag, taken, lo)
            == if FlagOf(s.r.st, flag) == taken
               then s.(pc := target, clk := s.clk + (if next / 256 == target / 256 then 3 else 4))
               else s.(pc := next, clk := s.clk + 2)
  {
    hide Bit7, Hi, FlagOf;
    SignBit(lo);
    Mod16(s.pc + 2, Signed(lo));
    PageOf(U16(s.pc + 2));
    PageOf(U16(s.pc + 2 + Signed(lo)));
  }

  lemma PageOf(w: Word)
    ensures Hi(w) == w / 256
  {
  }

  lemma BranchDecoded(op: Byte)
    requires IsBranch(op)
    ensures Decode(op).Branch?
    ensures forall st: Status :: (FlagOf(st, Decode(op).flag) == Decode(op).taken) == Wants(op, st)
  {
    hide Decode;
    if op < 0x80 {
      Decoded1Low();
      Decoded3Low();
      Decoded5Low();
      Decoded7Low();
      assert op == 0x10 || op == 0x30 || op == 0x50 || op == 0x70;
    } else {
      Decoded9Low();
      DecodedBLow();
      DecodedDLow();
      DecodedFLow();
      assert op == 0x90 || op == 0xb0 || op == 0xd0 || op == 0xf0;
    }
  }

  /** BRK, IRQ and NMI go through their vectors, with I set and three bytes more on the stack; B tells a BRK. */
  lemma BrkGoesTo(s: Cpu, nmi: bool)
    requires Opcode(s) == 0x00
    ensures Through(s, Happen(Instruction(nmi), s), true, if nmi then 0xfffa else 0xfffe)
  {
    hide Executed, Trap, Through, Peek, Decode;
    BrkExecuted(nmi, s, ByteAt(s, 1), ByteAt(s, 2));
    TrapGoesTo(s, U16(s.pc + 2), true, IrqVector(nmi));
    StepsExecuted(s, nmi);
  }

  lemma StepsExecuted(s: Cpu, nmi: bool)
    ensures Happen(Instruction(nmi), s) == Executed(Opcode(s), nmi, s, ByteAt(s, 1), ByteAt(s, 2))
  {
    hide Executed;
  }

  lemma InterruptGoesTo(s: Cpu, sei: bool, nmi: bool)
    ensures !s.r.st.i || sei ==> Through(s, Happen(Irq(sei, nmi), s), false, if nmi then 0xfffa else 0xfffe)
    ensures s.r.st.i && !sei ==> Happen(Irq(sei, nmi), s) == s
    ensures Through(s, Happen(Nmi, s), false, 0xfffa)
  {
    TrapGoesTo(s, s.pc, false, IrqVector(nmi));
    TrapGoesTo(s, s.pc, false, 0xfffa);
    hide Step, Trap, Through;
  }

  lemma TrapGoesTo(s: Cpu, ret: Word, brk: bool, vector: Word)
    requires vector == 0xfffa || vector == 0xfffe
    ensures Through(s, Trap(s, ret, brk, vector), brk, vector)
  {
    var t := Trap(s, ret, brk, vector);
    VectorWord(t.mem, vector);
    hide Packed, Lo, Hi, AbsWord;
    ThreeLess(s.r.sp);
  }

  lemma VectorWord(mem: Memory, vector: Word)
    requires vector < 0xffff
    ensures AbsWord(mem, vector) == Peek(mem, vector) + 256 * Peek(mem, vector + 1)
  {
  }

  lemma ThreeLess(sp: Byte)
    ensures U8(U8(U8(sp - 1) - 1) - 1) == (sp - 3) % 256
  {
  }

  /** The address to return to is on the stack, the high byte first, and below it the status. */
  lemma TrapStacks(s: Cpu, ret: Word, brk: bool, vector: Word)
    ensures Trap(s, ret, brk, vector).mem
         == s.mem[256 + s.r.sp := ret / 256][256 + (s.r.sp - 1) % 256 := ret % 256]
                 [256 + (s.r.sp - 2) % 256 := Packed(s.r.st.(b := brk))]
  {
    hide Packed, AbsWord;
    Mod8(s.r.sp - 1, -1);
  }

  /** A BRK is returned from two bytes further on, an interrupt where it came. */
  lemma Interrupted(s: Cpu, nmi: bool)
    ensures Opcode(s) == 0x00 ==> Happen(Instruction(nmi), s).mem == Trap(s, (s.pc + 2) % 65536, true, 0xfffe).mem
    ensures forall sei :: !s.r.st.i || sei ==> Happen(Irq(sei, nmi), s).mem == Trap(s, s.pc, false, 0xfffe).mem
    ensures Happen(Nmi, s).mem == Trap(s, s.pc, false, 0xfffa).mem
  {
    hide Executed, Packed, Decode;
    BrkExecuted(nmi, s, ByteAt(s, 1), ByteAt(s, 2));
  }

  predicate Through(s: Cpu, t: Cpu, brk: bool, vector: Word)
    requires vector == 0xfffa || vector == 0xfffe
  {
    t.pc == Peek(t.mem, vector) + 256 * Peek(t.mem, vector + 1)
    && t.r == s.r.(st := s.r.st.(i := true, b := brk), sp := (s.r.sp - 3) % 256) && t.clk == s.clk + 7
  }

  // ---- cycles ----

  /** The cycles of an instruction without page crossings and taken branches. */
  function Cycles(i: Instr): int {
    match i
    case Read(_, mode) => ReadCycles(mode, false)
    case Modify(_, mode) => WriteCycles(mode) + 2
    case Accumulator(_) => 2
    case Write(_, mode) => WriteCycles(mode)
    case Unstable(_, mode) => WriteCycles(mode)
    case Implied(op) => ImpliedCycles(op)
    case Branch(_, _) => 2
    case BRK => 7
    case JSR => 6
    case RTI => 6
    case RTS => 6
    case JMP => 3
    case JMPI => 5
    case JAM => 0
  }

  /** The cycles of the sixteen opcodes from base on, 0 for those that halt. */
  predicate Row(base: int, cycles: seq<int>) {
    && |cycles| == 16 && 0 <= base <= 0xf0
    && Cycles(Decode(base)) == cycles[0] && Cycles(Decode(base + 1)) == cycles[1]
    && Cycles(Decode(base + 2)) == cycles[2] && Cycles(Decode(base + 3)) == cycles[3]
    && Cycles(Decode(base + 4)) == cycles[4] && Cycles(Decode(base + 5)) == cycles[5]
    && Cycles(Decode(base + 6)) == cycles[6] && Cycles(Decode(base + 7)) == cycles[7]
    && Cycles(Decode(base + 8)) == cycles[8] && Cycles(Decode(base + 9)) == cycles[9]
    && Cycles(Decode(base + 10)) == cycles[10] && Cycles(Decode(base + 11)) == cycles[11]
    && Cycles(Decode(base + 12)) == cycles[12] && Cycles(Decode(base + 13)) == cycles[13]
    && Cycles(Decode(base + 14)) == cycles[14] && Cycles(Decode(base + 15)) == cycles[15]
  }

  lemma Row0()
    ensures Row(0x00, [7, 6, 0, 8, 3, 3, 5, 5, 3, 2, 2, 2, 4, 4, 6, 6])
  {
    hide Decode;
    Decoded0Low();
    Decoded0High();
  }

  lemma Row1()
    ensures Row(0x10, [2, 5, 0, 8, 4, 4, 6, 6, 2, 4, 2, 7, 4, 4, 7, 7])
  {
    hide Decode;
    Decoded1Low();
    Decoded1High();
  }

  lemma Row2()
    ensures Row(0x20, [6, 6, 0, 8, 3, 3, 5, 5, 4, 2, 2, 2, 4, 4, 6, 6])
  {
    hide Decode;
    Decoded2Low();
    Decoded2High();
  }

  lemma Row3()
    ensures Row(0x30, [2, 5, 0, 8, 4, 4, 6, 6, 2, 4, 2, 7, 4, 4, 7, 7])
  {
    hide Decode;
    Decoded3Low();
    Decoded3High();
  }

  lemma Row4()
    ensures Row(0x40, [6, 6, 0, 8, 3, 3, 5, 5, 3, 2, 2, 2, 3, 4, 6, 6])
  {
    hide Decode;
    Decoded4Low();
    Decoded4High();
  }

  lemma Row5()
    ensures Row(0x50, [2, 5, 0, 8, 4, 4, 6, 6, 2, 4, 2, 7, 4, 4, 7, 7])
  {
    hide Decode;
    Decoded5Low();
    Decoded5High();
  }

  lemma Row6()
    ensures Row(0x60, [6, 6, 0, 8, 3, 3, 5, 5, 4, 2, 2, 2, 5, 4, 6, 6])
  {
    hide Decode;
    Decoded6Low();
    Decoded6High();
  }

  lemma Row7()
    ensures Row(0x70, [2, 5, 0, 8, 4, 4, 6, 6, 2, 4, 2, 7, 4, 4, 7, 7])
  {
    hide Decode;
    Decoded7Low();
    Decoded7High();
  }

  lemma Row8()
    ensures Row(0x80, [2, 6, 2, 6, 3, 3, 3, 3, 2, 2, 2, 2, 4, 4, 4, 4])
  {
    hide Decode;
    Decoded8Low();
    Decoded8High();
  }

  lemma Row9()
    ensures Row(0x90, [2, 6, 0, 6, 4, 4, 4, 4, 2, 5, 2, 5, 5, 5, 5, 5])
  {
    hide Decode;
    Decoded9Low();
    Decoded9High();
  }

  lemma RowA()
    ensures Row(0xa0, [2, 6, 2, 6, 3, 3, 3, 3, 2, 2, 2, 2, 4, 4, 4, 4])
  {
    hide Decode;
    DecodedALow();
    DecodedAHigh();
  }

  lemma RowB()
    ensures Row(0xb0, [2, 5, 0, 5, 4, 4, 4, 4, 2, 4, 2, 4, 4, 4, 4, 4])
  {
    hide Decode;
    DecodedBLow();
    DecodedBHigh();
  }

  lemma RowC()
    ensures Row(0xc0, [2, 6, 2, 8, 3, 3, 5, 5, 2, 2, 2, 2, 4, 4, 6, 6])
  {
    hide Decode;
    DecodedCLow();
    DecodedCHigh();
  }

  lemma RowD()
    ensures Row(0xd0, [2, 5, 0, 8, 4, 4, 6, 6, 2, 4, 2, 7, 4, 4, 7, 7])
  {
    hide Decode;
    DecodedDLow();
    DecodedDHigh();
  }

  lemma RowE()
    ensures Row(0xe0, [2, 6, 2, 8, 3, 3, 5, 5, 2, 2, 2, 2, 4, 4, 6, 6])
  {
    hide Decode;
    DecodedELow();
    DecodedEHigh();
  }

  lemma RowF()
    ensures Row(0xf0, [2, 5, 0, 8, 4, 4, 6, 6, 2, 4, 2, 7, 4, 4, 7, 7])
  {
    hide Decode;
    DecodedFLow();
    DecodedFHigh();
  }

  /** The published cycles of all 256 opcodes. */
  lemma CycleTable()
    ensures Row(0x00, [7, 6, 0, 8, 3, 3, 5, 5, 3, 2, 2, 2, 4, 4, 6, 6])
    ensures Row(0x10, [2, 5, 0, 8, 4, 4, 6, 6, 2, 4, 2, 7, 4, 4, 7, 7])
    ensures Row(0x20, [6, 6, 0, 8, 3, 3, 5, 5, 4, 2, 2, 2, 4, 4, 6, 6])
    ensures Row(0x30, [2, 5, 0, 8, 4, 4, 6, 6, 2, 4, 2, 7, 4, 4, 7, 7])
    ensures Row(0x40, [6, 6, 0, 8, 3, 3, 5, 5, 3, 2, 2, 2, 3, 4, 6, 6])
    ensures Row(0x50, [2, 5, 0, 8, 4, 4, 6, 6, 2, 4, 2, 7, 4, 4, 7, 7])
    ensures Row(0x60, [6, 6, 0, 8, 3, 3, 5, 5, 4, 2, 2, 2, 5, 4, 6, 6])
    ensures Row(0x70, [2, 5, 0, 8, 4, 4, 6, 6, 2, 4, 2, 7, 4, 4, 7, 7])
    ensures Row(0x80, [2, 6, 2, 6, 3, 3, 3, 3, 2, 2, 2, 2, 4, 4, 4, 4])
    ensures Row(0x90, [2, 6, 0, 6, 4, 4, 4, 4, 2, 5, 2, 5, 5, 5, 5, 5])
    ensures Row(0xa0, [2, 6, 2, 6, 3, 3, 3, 3, 2, 2, 2, 2, 4, 4, 4, 4])
    ensures Row(0xb0, [2, 5, 0, 5, 4, 4, 4, 4, 2, 4, 2, 4, 4, 4, 4, 4])
    ensures Row(0xc0, [2, 6, 2, 8, 3, 3, 5, 5, 2, 2, 2, 2, 4, 4, 6, 6])
    ensures Row(0xd0, [2, 5, 0, 8, 4, 4, 6, 6, 2, 4, 2, 7, 4, 4, 7, 7])
    ensures Row(0xe0, [2, 6, 2, 8, 3, 3, 5, 5, 2, 2, 2, 2, 4, 4, 6, 6])
    ensures Row(0xf0, [2, 5, 0, 8, 4, 4, 6, 6, 2, 4, 2, 7, 4, 4, 7, 7])
  {
    hide *;
    Row0(); Row1(); Row2(); Row3();
    Row4(); Row5(); Row6(); Row7();
    Row8(); Row9(); RowA(); RowB();
    RowC(); RowD(); RowE(); RowF();
  }
}
