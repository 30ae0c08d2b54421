/** What the two 6510 cores have in common textually: memory access, the status macros and the fetch table. */
module Macros6510 {
  import opened Bits
  import opened Isa6510

  /** reg_p, one boolean a bit.  N and Z are kept in flag_n and flag_z; bit 5 is covered by P_UNUSED in every read. */
  datatype RegP = RegP(v: bool, b: bool, d: bool, i: bool, c: bool)

  /** LOCAL_STATUS: N is bit 7 of flag_n, and Z means that flag_z is zero. */
  function LocalStatus(p: RegP, flagN: Byte, flagZ: Byte): Status {
    Status(Bit7(flagN), p.v, p.b, p.d, p.i, flagZ == 0, p.c)
  }

  function LoadFrom(mem: Memory, addr: int): Byte {
    Peek(mem, U16(addr))
  }

  function StoreTo(mem: Memory, addr: int, value: int): Memory {
    mem[U16(addr) := U8(value)]
  }

  /** fetch_tab: the opcodes whose third byte is fetched together with the opcode. */
  predicate FetchTab(op: Byte) {
    op % 16 >= 12 || (op / 16 % 2 == 1 && (op % 16 == 9 || op % 16 == 11))
  }

  function FetchCycles(op: Byte): int {
    if FetchTab(op) then 3 else 2
  }

  /** The macro p2: the operand bytes that were fetched, as one number. */
  function P2(op: Byte, lo: Byte, hi: Byte): Word {
    if FetchTab(op) then Pair(lo, hi) else lo
  }

  /** (signed char)(value). */
  function SignedChar(v: Byte): int {
    if Bit7(v) then v - 0x100 else v
  }

  /** (addr & 0xff00) | (v & 0xff) on a 16-bit address. */
  function InPage(addr: int, v: int): Word {
    Pair(Lo(v), Hi(addr))
  }

  // ---- ADC, SBC and ARR: the text of these macros is the same in both cores ----

  method DecimalDigits(a: Byte, value: Byte, c: bool) returns (tmp: int, ghost hi: int, ghost lo: int)
    ensures hi == a / 16 + value / 16 + Num(DigitCorrected(a % 16 + value % 16 + Num(c)) > 15)
    ensures lo == DigitCorrected(a % 16 + value % 16 + Num(c)) % 16
    ensures tmp == 16 * hi + lo && 0 <= lo < 16 && 0 <= hi < 32
    ensures Bit7(tmp) == (hi % 16 >= 8)
  {
    tmp := a % 16 + value % 16 + Num(c);
    if tmp > 0x9 {
      tmp := tmp + 0x6;
    }
    lo := tmp % 16;
    hi := a / 16 + value / 16 + Num(tmp > 15);
    Nibbles(hi, lo);
    if tmp <= 0x0f {
      tmp := tmp % 16 + 16 * (a / 16) + 16 * (value / 16);
    } else {
      tmp := tmp % 16 + 16 * (a / 16) + 16 * (value / 16) + 0x10;
    }
  }

  method DecimalFlags(a: Byte, value: Byte, tmp: int, p: RegP) returns (n: Byte, z: Byte, p': RegP)
    ensures Bit7(n) == Bit7(tmp) && (z == 0) == ((a + value + Num(p.c)) % 0x100 == 0)
    ensures p' == p.(v := Bit7(a) == Bit7(value) && Bit7(a) != Bit7(tmp))
  {
    z := if (a + value + Num(p.c)) % 0x100 != 0 then 1 else 0;
    n := if Bit7(tmp) then 0x80 else 0;
    p' := p.(v := Bit7(a) != Bit7(tmp) && Bit7(a) == Bit7(value));
  }

  lemma HighPart(hi: int, lo: int)
    requires 0 <= lo < 16 && 0 <= hi < 38
    ensures (16 * hi + lo) / 16 == hi
    ensures (16 * hi + lo) / 16 % 0x100 == hi && (hi < 32 ==> (16 * hi + lo) / 16 % 32 == hi)
  {
    var d := (16 * hi + lo) / 16;
    assert d == hi;
  }

  method DecimalCorrection(sum: int, ghost hi: int, ghost lo: int) returns (tmp: int, c: bool)
    requires sum == 16 * hi + lo && 0 <= lo < 16 && 0 <= hi < 32
    ensures U8(tmp) == U8(16 * DigitCorrected(hi) + lo) && c == (DigitCorrected(hi) > 15)
  {
    hide U8;
    tmp := sum;
    HighPart(hi, lo);
    if tmp / 16 % 32 > 0x9 {
      tmp := tmp + 0x60;
      HighPart(hi + 6, lo);
    }
    c := tmp / 16 % 0x100 > 0xf;
  }

  /** reg_p holds the flags of st other than N and Z. */
  ghost predicate Holds(p: RegP, st: Status) {
    st.v == p.v && st.b == p.b && st.d == p.d && st.i == p.i && st.c == p.c
  }

  method AdcBinary(a: Byte, value: Byte, p: RegP, ghost st: Status) returns (a': Byte, n: Byte, z: Byte, p': RegP)
    requires Holds(p, st)
    ensures (a', LocalStatus(p', n, z)) == AddBinary(a, value, st)
  {
    var tmp := value + a + Num(p.c);
    z := U8(tmp);
    n := z;
    p' := p.(v := Bit7(a) == Bit7(value) && Bit7(a) != Bit7(tmp));
    p' := p'.(c := tmp > 0xff);
    a' := U8(tmp);
  }

  method AdcMacro(a: Byte, value: Byte, p: RegP, ghost st: Status) returns (a': Byte, n: Byte, z: Byte, p': RegP)
    requires Holds(p, st)
    ensures (a', LocalStatus(p', n, z)) == Add(a, value, st)
  {
    if p.d {
      var tmp, hi, lo := DecimalDigits(a, value, p.c);
      n, z, p' := DecimalFlags(a, value, tmp, p);
      var c;
      tmp, c := DecimalCorrection(tmp, hi, lo);
      p' := p'.(c := c);
      a' := U8(tmp);
    } else {
      a', n, z, p' := AdcBinary(a, value, p, st);
    }
  }

  method LowBorrow(lo: int) returns (tmpA: int)
    requires -16 <= lo < 16
    ensures Bit4(tmpA) == (lo < 0)
    ensures (tmpA - 6) % 16 == (lo - 6) % 16 && tmpA % 16 == lo % 16
  {
    tmpA := U32(lo);
  }

  method HighBorrow(t: int, ghost hi: int, ghost lo: int) returns (tmpA: int)
    requires t == U32(16 * hi + lo) && -16 <= hi < 16 && 0 <= lo < 16
    ensures U8(tmpA) == U8(16 * (if hi < 0 then hi - 6 else hi) + lo)
  {
    tmpA := t;
    Wrapped(16 * hi + lo);
    Wrapped(16 * hi + lo - 0x60);
    if Bit8(tmpA) {
      tmpA := U32(tmpA - 0x60);
    }
  }

  method SbcDecimal(a: Byte, src: Byte, c: bool) returns (tmpA: int)
    ensures U8(tmpA) == SubtractDecimal(a, src, c)
  {
    ghost var lo := a % 16 - src % 16 - Num(!c);
    tmpA := LowBorrow(a % 16 - src % 16 - Num(!c));
    if Bit4(tmpA) {
      tmpA := U32((tmpA - 6) % 16 + (16 * (a / 16) - 16 * (src / 16) - 0x10));
    } else {
      tmpA := U32(tmpA % 16 + (16 * (a / 16) - 16 * (src / 16)));
    }
    tmpA := HighBorrow(tmpA, a / 16 - src / 16 - Num(lo < 0), (if lo < 0 then lo - 6 else lo) % 16);
  }

  /** uint16_t tmp = a - src - borrow, and what its bits say about the difference. */
  method Difference(diff: int) returns (tmp: Word)
    requires -0x100 <= diff < 0x100
    ensures U8(tmp) == U8(diff) && (tmp < 0x100) == (diff >= 0) && Bit7(tmp) == Bit7(diff) == Bit7(U8(diff))
  {
    tmp := U16(diff);
    assert U8(diff) == (if diff >= 0 then diff else diff + 0x100);
  }

  method SbcFlags(a: Byte, value: Byte, p: RegP, ghost st: Status) returns (tmp: Word, n: Byte, z: Byte, p': RegP)
    requires Holds(p, st)
    ensures U8(tmp) == U8(a - value - Num(!p.c))
    ensures LocalStatus(p', n, z) == SubtractStatus(a, value, st)
  {
    tmp := Difference(a - value - Num(!p.c));
    z := U8(tmp);
    n := z;
    p' := p.(c := tmp < 0x100);
    p' := p'.(v := Bit7(a) != Bit7(tmp) && Bit7(a) != Bit7(value));
  }

  method SbcMacro(a: Byte, value: Byte, p: RegP, ghost st: Status) returns (a': Byte, n: Byte, z: Byte, p': RegP)
    requires Holds(p, st)
    ensures (a', LocalStatus(p', n, z)) == Subtract(a, value, st)
  {
    var tmp;
    tmp, n, z, p' := SbcFlags(a, value, p, st);
    if p.d {
      var tmpA := SbcDecimal(a, value, p.c);
      a' := U8(tmpA);
    } else {
      a' := U8(tmp);
    }
  }

  method ArrDecimal(tmp: Byte, r: Byte) returns (a: Byte, c: bool)
    ensures a == 16 * (if tmp / 16 + tmp / 16 % 2 > 5 then (r / 16 + 6) % 16 else r / 16)
                 + (if tmp % 16 + tmp % 2 > 5 then (r + 6) % 16 else r % 16)
    ensures c == (tmp / 16 + tmp / 16 % 2 > 5)
  {
    var tmp2: int := r;
    if tmp % 16 + tmp % 2 > 0x5 {
      tmp2 := 16 * (tmp2 / 16) + (tmp2 + 0x6) % 16;
    }
    c := 16 * (tmp / 16) + 16 * (tmp / 16 % 2) > 0x50;
    tmp2 := ArrHigh(tmp2, r / 16, tmp2 % 16, c);
    a := U8(tmp2);
  }

  method ArrHigh(t: int, ghost hi: int, ghost lo: int, c: bool) returns (tmp2: Byte)
    requires t == 16 * hi + lo && 0 <= lo < 16 && 0 <= hi < 16
    ensures tmp2 == 16 * (if c then (hi + 6) % 16 else hi) + lo
  {
    Nibbles(hi, lo);
    Nibbles(hi + 6, lo);
    if c {
      tmp2 := t % 16 + 16 * ((t + 0x60) / 16 % 16);
    } else {
      tmp2 := t;
    }
  }

  method ArrBinary(tmp2: Byte, p: RegP, ghost st: Status) returns (n: Byte, z: Byte, p': RegP)
    requires Holds(p, st)
    ensures LocalStatus(p', n, z) == SetNZ(st, tmp2).(c := Bit6(tmp2), v := Bit6(tmp2) != Bit5(tmp2))
  {
    z := U8(tmp2);
    n := z;
    p' := p.(c := Bit6(tmp2));
    p' := p'.(v := Bit6(tmp2) != Bit5(tmp2));
  }

  method ArrDecimalFlags(tmp: Byte, tmp2: Byte, p: RegP, ghost st: Status) returns (n: Byte, z: Byte, p': RegP)
    requires Holds(p, st) && tmp2 == tmp / 2 + 128 * Num(p.c)
    ensures LocalStatus(p', n, z) == SetNZ(st, tmp2).(v := Bit6(tmp2) != Bit6(tmp))
  {
    n := if p.c then 0x80 else 0;
    z := if tmp2 != 0 then 1 else 0;
    p' := p.(v := Bit6(tmp2) != Bit6(tmp));
  }

  /** tmp is the accumulator ANDed with the operand. */
  method ArrMacro(tmp: Byte, p: RegP, ghost st: Status) returns (a': Byte, n: Byte, z: Byte, p': RegP)
    requires Holds(p, st)
    ensures (a', LocalStatus(p', n, z)) == RotateAnded(tmp, st)
  {
    var tmp2: Byte := (tmp + 0x100 * Num(p.c)) / 2;
    assert tmp2 == tmp / 2 + 128 * Num(p.c);
    if p.d {
      n, z, p' := ArrDecimalFlags(tmp, tmp2, p, st);
      var c;
      a', c := ArrDecimal(tmp, tmp2);
      p' := p'.(c := c);
    } else {
      n, z, p' := ArrBinary(tmp2, p, st);
      a' := tmp2;
    }
  }
}
