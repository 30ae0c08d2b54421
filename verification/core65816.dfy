/** vice/src/65816core.c: the macros that push, pull, call, return, switch modes, move registers and copy blocks.
    Interrupt checks, dummy fetches and the clock are left out; every method is proved against the specification. */
module Core65816 {
  import opened Bits
  import opened Isa65816
  import Isa6510
  import DecimalCmos
  import Arithmetic65816

  /** reg_p, one boolean a bit; N and Z are kept in flag_n and flag_z. */
  datatype RegP = RegP(v: bool, m: bool, x: bool, d: bool, i: bool, c: bool)

  lemma OrZero(a: Byte, b: Byte)
    ensures Or(a, b) == 0 <==> a == 0 && b == 0
  {
    assert ((a as bv8) | (b as bv8)) == 0 <==> (a as bv8) == 0 && (b as bv8) == 0;
  }

  class Core {
    var c: Word
    var x: Word
    var y: Word
    var sp: Word
    var dpr: Word
    var pbr: Byte
    var dbr: Byte
    var p: RegP
    var flagN: Byte
    var flagZ: Byte
    var emul: bool
    var pc: Word
    var mem: Memory

    constructor (mem: Memory)
      ensures var st := Status(false, false, false, false, false, false, true, false);
              View() == Cpu(0, 0, 0, 0x100, 0, 0, 0, 0, st, true, mem)
    {
      c, x, y, sp, dpr, pbr, dbr, pc := 0, 0, 0, 0x100, 0, 0, 0, 0;
      p := RegP(false, false, false, false, false, false);
      flagN, flagZ, emul := 0, 0, true;
      this.mem := mem;
    }

    ghost function St(): Status
      reads `p, `flagN, `flagZ
    {
      Status(Bit7(flagN), p.v, p.m, p.x, p.d, p.i, flagZ == 0, p.c)
    }

    ghost function View(): Cpu
      reads this
    {
      Cpu(c, x, y, sp, dpr, pbr, dbr, pc, St(), emul, mem)
    }

    predicate LocalM()
      reads `p, `emul
    {
      emul || p.m
    }

    predicate LocalX()
      reads `p, `emul
    {
      emul || p.x
    }

    function LoadLong(addr: int): Byte
      reads `mem
    {
      Isa65816.Peek(mem, addr)
    }

    function FetchParam(addr: int): Byte
      reads `mem, `pbr
    {
      LoadLong(addr + 0x10000 * pbr)
    }

    method LocalSetNZ(val: Word, bits8: bool)
      modifies `flagN, `flagZ
      ensures St() == SetNZ(old(St()), val, bits8)
    {
      hide Or, Bit7;
      if !bits8 {
        flagN := val / 0x100;
        OrZero(Lo(val), flagN);
        flagZ := Or(Lo(val), flagN);
      } else {
        Sign(val);
        flagN := Lo(val);
        flagZ := flagN;
      }
    }

    static lemma Sign(v: Word)
      ensures Bit7(Lo(v)) == Bit7(v)
    {
    }

    // ---- stack ----

    method PushByte(val: int)
      modifies `mem, `sp
      ensures View() == Push(old(View()), U8(val))
    {
      hide U8, Core.St;
      mem := mem[sp := U8(val)];
      if emul {
        sp := 0x100 + U8(sp - 1);
      } else {
        sp := U16(sp - 1);
      }
    }

    /** STORE_LONG(reg_sp, val) and reg_sp--. */
    method PushRaw(val: int)
      modifies `mem, `sp
      ensures View() == RawPush(old(View()), U8(val))
    {
      hide U8, Core.St;
      mem := mem[sp := U8(val)];
      sp := U16(sp - 1);
    }

    method PullByte() returns (v: Byte)
      modifies `sp
      ensures View() == old(View()).(sp := StackUp(old(View()), 1)) && v == PulledAt(old(View()), 1)
    {
      hide U8, U16, Core.St;
      if emul {
        sp := 0x100 + U8(sp + 1);
      } else {
        sp := U16(sp + 1);
      }
      v := LoadLong(sp);
    }

    method PullRaw() returns (v: Byte)
      modifies `sp
      ensures sp == U16(old(sp) + 1) && v == Isa65816.Peek(mem, sp)
    {
      sp := U16(sp + 1);
      v := LoadLong(sp);
    }

    method PushTwoBytes(w: Word)
      modifies `mem, `sp
      ensures View() == PushWord(old(View()), w)
    {
      hide Core.View, Push;
      WordBytes(w);
      PushByte(w / 0x100);
      PushByte(w);
    }

    static lemma WordBytes(w: Word)
      ensures U8(w / 0x100) == Hi(w) && U8(w) == Lo(w)
    {
    }

    /** The three lines at the end of PEA, PEI, PER and PHD. */
    method PushTwoRaw(w: Word)
      modifies `mem, `sp
      ensures View() == PushWordRaw(old(View()), w)
    {
      hide Core.View, Push, RawPush;
      WordBytes(w);
      PushRaw(w / 0x100);
      PushByte(w);
    }

    /** STORE_STACK. */
    method StoreStack(value: Word, bits8: bool)
      modifies `mem, `sp
      ensures View() == PushWide(old(View()), value, bits8)
    {
      hide Core.View, Push, PushWord;
      if bits8 {
        WordBytes(value);
        PushByte(value);
      } else {
        PushTwoBytes(value);
      }
    }

    /** LOAD_STACK. */
    method LoadStack(bits8: bool) returns (v: Word)
      modifies `sp
      ensures View() == Shrunk(old(View()), bits8) && v == Isa65816.Pulled(old(View()), bits8)
    {
      hide Core.St;
      ghost var s := View();
      v := PullByte();
      if !bits8 {
        TwoUp(s);
        var high := PullByte();
        v := Pair(v, high);
      }
    }

    static lemma TwoUp(s: Cpu)
      ensures var t := s.(sp := StackUp(s, 1));
              StackUp(t, 1) == StackUp(s, 2) && StackUp(t, 2) == StackUp(s, 3) && StackUp(t, 3) == StackUp(s, 4)
              && PulledAt(t, 1) == PulledAt(s, 2) && PulledAt(t, 2) == PulledAt(s, 3) && PulledAt(t, 3) == PulledAt(s, 4)
    {
      hide U8, U16;
      OneMore(s.sp, 1);
      OneMore(s.sp, 2);
      OneMore(s.sp, 3);
    }

    static lemma OneMore(sp: Word, n: int)
      ensures 0x100 + U8(0x100 + U8(sp + 1) + n) == 0x100 + U8(sp + n + 1) && U16(U16(sp + 1) + n) == U16(sp + n + 1)
    {
      hide U8, U16;
      PageByte(U8(sp + 1) + n);
      Mod8(sp + 1, n);
      Mod16(sp + 1, n);
    }

    // ---- registers ----

    lemma Viewed()
      ensures var s := View();
              s.c == c && s.x == x && s.y == y && s.emul == emul && s.st.m == p.m && s.st.x == p.x
    {
      hide Bit7;
    }

    /** The flag instructions and comparisons. */
    method SetFlags(st: Status)
      modifies `p, `flagN, `flagZ
      ensures View() == Step(old(View()), Flags(st))
    {
      hide Core.St;
      SetAllFlags(st);
    }

    method SetAllFlags(st: Status)
      modifies `p, `flagN, `flagZ
      ensures St() == st.(m := old(St()).m, x := old(St()).x)
    {
      hide Bit7;
      SignValues();
      flagN := if st.n then 0x80 else 0;
      flagZ := if st.z then 0 else 1;
      p := RegP(st.v, p.m, p.x, st.d, st.i, st.c);
    }

    static lemma LowNZ(st: Status, v: Word)
      ensures SetNZ(st, Lo(v), true) == SetNZ(st, v, true)
    {
    }

    /** reg_x or reg_y, truncated when it is narrow: TRANSI, INCDECI, LDI and PLI. */
    method SetIndex(r: Index, v: Word)
      modifies `x, `y, `flagN, `flagZ
      ensures View() == WithIndex(old(View()), r, v)
    {
      hide SetNZ, Lo, Core.St;
      StFields();
      var w := if LocalX() then Lo(v) else v;
      if r == X {
        x := w;
      } else {
        y := w;
      }
      LocalSetNZ(w, LocalX());
    }

    /** reg_a or reg_c: LOGICAL, TRANSA and PLA. */
    method SetAccumulator(v: Word)
      modifies `c, `flagN, `flagZ
      ensures View() == WithAccumulator(old(View()), v)
    {
      hide SetNZ, Lo, Hi, Core.St;
      StFields();
      if LocalM() {
        c := Pair(Lo(v), Hi(c));
        LowNZ(St(), v);
        LocalSetNZ(Lo(v), true);
      } else {
        c := v;
        LocalSetNZ(c, false);
      }
    }

    method Pli(r: Index)
      modifies `sp, `x, `y, `flagN, `flagZ
      ensures View() == Step(old(View()), PullIndex(r))
    {
      hide WithIndex, Isa65816.Pulled, StackUp, Core.St;
      StFields();
      var v := LoadStack(LocalX());
      SetIndex(r, v);
    }

    method Pla()
      modifies `sp, `c, `flagN, `flagZ
      ensures View() == Step(old(View()), PullA)
    {
      hide WithAccumulator, Isa65816.Pulled, StackUp, Core.St;
      StFields();
      var v := LoadStack(LocalM());
      SetAccumulator(v);
    }

    method Plb()
      modifies `sp, `dbr, `flagN, `flagZ
      ensures View() == Step(old(View()), PullDbr)
    {
      hide U8, U16, SetNZ, Core.St;
      dbr := PullByte();
      LocalSetNZ(dbr, true);
    }

    method SetStatusByte(val: Byte)
      modifies `p, `flagN, `flagZ
      ensures View() == old(View()).(st := Unpacked(val))
    {
      hide Bit0, Bit1, Bit2, Bit3, Bit4, Bit5, Bit6, Bit7;
      p := RegP(Bit6(val), Bit5(val), Bit4(val), Bit3(val), Bit2(val), Bit0(val));
      flagZ := if Bit1(val) then 0 else 1;
      flagN := val;
    }

    method TruncateIndex()
      modifies `x, `y
      ensures View() == Truncated(old(View()))
    {
      hide Lo, Core.St;
      StFields();
      if LocalX() {
        x := Lo(x);
        y := Lo(y);
      }
    }

    /** LOCAL_SET_STATUS and the truncation after it: PLP and RTI. */
    method SetStatus(val: Byte)
      modifies `p, `flagN, `flagZ, `x, `y
      ensures View() == LoadStatus(old(View()), val)
    {
      hide Core.View, Unpacked, Truncated;
      SetStatusByte(val);
      TruncateIndex();
    }

    method Plp()
      modifies `sp, `p, `flagN, `flagZ, `x, `y
      ensures View() == Step(old(View()), PullStatus)
    {
      hide U8, U16, LoadStatus, Core.St;
      var v := PullByte();
      SetStatus(v);
    }

    method PullTwoRaw() returns (w: Word)
      modifies `sp
      ensures var s := old(View());
              w == Pair(RawAt(s, 1), RawAt(s, 2)) && View() == s.(sp := U16(s.sp + 2))
    {
      hide U16, Core.St;
      TwiceUp(sp);
      var low := PullRaw();
      var high := PullRaw();
      w := Pair(low, high);
    }

    static lemma PullDirectStep(s: Cpu)
      ensures var w := Pair(RawAt(s, 1), RawAt(s, 2));
              Step(s, PullDirect)
              == s.(sp := if s.emul then 0x100 + U8(s.sp + 2) else U16(s.sp + 2), dpr := w, st := SetNZ(s.st, w, false))
    {
      hide RawAt, SetNZ, U8, U16;
    }

    method Pld()
      modifies `sp, `dpr, `flagN, `flagZ
      ensures View() == Step(old(View()), PullDirect)
    {
      hide U8, U16, SetNZ, Core.St, Step, RawAt, StackUp;
      TwiceUp(sp);
      PullDirectStep(View());
      dpr := PullTwoRaw();
      if emul {
        sp := 0x100 + U8(sp);
      }
      LocalSetNZ(dpr, false);
    }

    static lemma TwiceUp(sp: Word)
      ensures U16(U16(sp + 1) + 1) == U16(sp + 2) && U16(U16(sp + 2) + 1) == U16(sp + 3)
      ensures U8(U16(sp + 2)) == U8(sp + 2) && U8(U16(sp + 3)) == U8(sp + 3)
    {
    }

    method TransferIndex(i: Instr)
      requires i == Txy || i == Tyx
      modifies `x, `y, `flagN, `flagZ
      ensures View() == Step(old(View()), i)
    {
      hide SetNZ, Core.St;
      StFields();
      if i == Txy {
        y := x;
        LocalSetNZ(y, LocalX());
      } else {
        x := y;
        LocalSetNZ(x, LocalX());
      }
    }

    method TransferWide(i: Instr)
      requires i == Tcd || i == Tdc || i == Tsc
      modifies `c, `dpr, `flagN, `flagZ
      ensures View() == Step(old(View()), i)
    {
      hide SetNZ, Core.St;
      if i == Tcd {
        dpr := c;
        LocalSetNZ(dpr, false);
      } else if i == Tdc {
        c := dpr;
        LocalSetNZ(c, false);
      } else {
        c := sp;
        LocalSetNZ(c, false);
      }
    }

    method TransferStack(i: Instr)
      requires i == Tcs || i == Txs
      modifies `sp
      ensures View() == Step(old(View()), i)
    {
      hide Bit8, Core.St, Lo;
      if i == Tcs {
        if emul {
          sp := 0x100 + Lo(c);
        } else {
          sp := c;
        }
      } else if emul && !Bit8(x) {
        HighBit(x);
        sp := 0x100 + x;
      } else {
        sp := x;
      }
    }

    method ExchangeBytes()
      modifies `c
      ensures View() == Step(old(View()), Xba)
    {
      hide Core.St, Lo, Hi;
      c := Pair(Hi(c), Lo(c));
    }

    method Transfer(i: Instr)
      requires i == Txy || i == Tyx || i == Tcd || i == Tdc || i == Tcs || i == Tsc || i == Txs || i == Xba
      modifies `x, `y, `c, `dpr, `sp, `flagN, `flagZ
      ensures View() == Step(old(View()), i)
    {
      hide Step, Core.View;
      if i == Txy || i == Tyx {
        TransferIndex(i);
      } else if i == Tcd || i == Tdc || i == Tsc {
        TransferWide(i);
      } else if i == Tcs || i == Txs {
        TransferStack(i);
      } else {
        ExchangeBytes();
      }
    }

    static lemma HighBit(v: Word)
      ensures !Bit8(v) ==> v + 0x100 < 0x10000
    {
    }

    // ---- arithmetic ----

    /** The flags that ADC and SBC read. */
    function ArithmeticFlags(): Isa6510.Status
      reads `p
    {
      Isa6510.Status(false, false, false, p.d, false, false, p.c)
    }

    method AdcNarrow(value: Byte)
      modifies `c, `p, `flagN, `flagZ
      ensures var r := DecimalCmos.AddCmos(Lo(old(c)), value, old(ArithmeticFlags()));
              c == Pair(r.0, Hi(old(c))) && p == old(p).(c := r.1.c, v := r.1.v)
      ensures St() == SetNZ(old(St()).(c := p.c, v := p.v), c, true)
    {
      hide U8, Lo, Hi, SetNZ, DecimalCmos.AddCmos, Bit7;
      var tmp, v, carry := Arithmetic65816.Adc8(Lo(c), value, ArithmeticFlags());
      p := p.(v := v);
      p := p.(c := carry);
      LowPair(St(), U8(tmp), Hi(c));
      LocalSetNZ(U8(tmp), true);
      c := Pair(U8(tmp), Hi(c));
    }

    /** Assign V and C. */
    method SetVC(v: bool, carry: bool)
      modifies `p
      ensures p == old(p).(c := carry, v := v) && St() == old(St()).(c := carry, v := v)
    {
      hide Bit7;
      p := p.(v := v);
      p := p.(c := carry);
    }

    static lemma LowPair(st: Status, lo: Byte, hi: Byte)
      ensures SetNZ(st, lo, true) == SetNZ(st, Pair(lo, hi), true)
    {
      PairParts(lo, hi);
    }

    /** 16-bit ADC: decimal additions are those of two chained bytes. */
    method AdcWide(value: Word)
      modifies `c, `p, `flagN, `flagZ
      ensures p.d ==> (c, p.c) == Arithmetic65816.AddWords(old(c), value, old(p).c)
      ensures p.d ==> p.v == Arithmetic65816.OverflowWritten(old(c), value, old(p).c)
      ensures var sum := old(c) + value + Num(old(p).c);
              !p.d ==> c == U16(sum) && p.c == (sum > 0xffff)
                       && p.v == ((old(c) >= 0x8000) == (value >= 0x8000) && (old(c) >= 0x8000) != (c >= 0x8000))
      ensures p == old(p).(c := p.c, v := p.v) && St() == SetNZ(old(St()).(c := p.c, v := p.v), c, false)
    {
      hide SetNZ, Bit7, U16, Core.St, Arithmetic65816.AddWords, Arithmetic65816.OverflowWritten;
      var tmp: int, v: bool;
      if p.d {
        tmp, v := Arithmetic65816.AdcDecimal16(c, value, p.c);
      } else {
        tmp := Num(p.c) + value + c;
        v := (c >= 0x8000) == (value >= 0x8000) && (c >= 0x8000) != (U16(tmp) >= 0x8000);
      }
      SetVC(v, tmp > 0xffff);
      LocalSetNZ(U16(tmp), false);
      c := U16(tmp);
    }

    method SbcNarrow(value: Byte)
      modifies `c, `p, `flagN, `flagZ
      ensures var r := DecimalCmos.Subtract65816(Lo(old(c)), value, old(ArithmeticFlags()));
              c == Pair(r.0, Hi(old(c))) && p == old(p).(c := r.1.c, v := r.1.v)
      ensures St() == SetNZ(old(St()).(c := p.c, v := p.v), c, true)
    {
      hide U8, Lo, Hi, SetNZ, DecimalCmos.Subtract65816, Bit7;
      var r, v, carry := Arithmetic65816.Sbc8(Lo(c), value, ArithmeticFlags());
      p := p.(v := v);
      p := p.(c := carry);
      LowPair(St(), r, Hi(c));
      LocalSetNZ(r, true);
      c := Pair(r, Hi(c));
    }

    /** 16-bit SBC: in decimal mode the subtraction starts from reg_a, the low byte of reg_c. */
    method SbcWide(value: Word)
      modifies `c, `p, `flagN, `flagZ
      ensures p.d ==> (c, p.c) == Arithmetic65816.SubtractAsWritten(old(c), value, old(p).c)
      ensures var diff := old(c) - value - Num(!old(p).c);
              (!p.d ==> c == U16(diff) && p.c == (diff >= 0))
              && p.v == ((old(c) >= 0x8000) != (value >= 0x8000) && (old(c) >= 0x8000) != (U16(diff) >= 0x8000))
      ensures p == old(p).(c := p.c, v := p.v) && St() == SetNZ(old(St()).(c := p.c, v := p.v), c, false)
    {
      hide SetNZ, Bit7, Arithmetic65816.SubtractWords, Lo;
      var tmp: int := Num(p.c) + (0xffff - value) + c;
      var v := (c >= 0x8000) != (value >= 0x8000) && (c >= 0x8000) != (U16(tmp) >= 0x8000);
      var carry: bool;
      if p.d {
        tmp, carry := Arithmetic65816.SbcDecimal16(Lo(c), value, p.c);
      } else {
        carry := tmp > 0xffff;
      }
      SetVC(v, carry);
      LocalSetNZ(U16(tmp), false);
      c := U16(tmp);
    }

    // ---- modes ----

    static lemma SignValues()
      ensures Bit7(0x80) && !Bit7(0)
    {
    }

    method MaskNZ(value: Byte, v: bool)
      modifies `flagN, `flagZ
      ensures Bit7(flagN) == if Bit7(value) then v else Bit7(old(flagN))
      ensures (flagZ == 0) == if Bit1(value) then v else old(flagZ) == 0
    {
      hide Bit1, Bit7;
      SignValues();
      if Bit7(value) {
        flagN := if v then 0x80 else 0;
      }
      if Bit1(value) {
        flagZ := if v then 0 else 1;
      }
    }

    /** The part of the macro that changes reg_p. */
    static function MaskP(p: RegP, emul: bool, value: Byte, v: bool): RegP {
      RegP(if Bit6(value) then v else p.v, if Bit5(value) && !emul then v else p.m,
           if Bit4(value) && !emul then v else p.x, if Bit3(value) then v else p.d,
           if Bit2(value) then v else p.i, if Bit0(value) then v else p.c)
    }

    static lemma MaskPFields(p: RegP, emul: bool, mask: Byte, on: bool)
      ensures var r := MaskP(p, emul, mask, on);
              r.v == (if Bit6(mask) then on else p.v)
              && r.m == (if Bit5(mask) && !emul then on else p.m) && r.x == (if Bit4(mask) && !emul then on else p.x)
              && r.d == (if Bit3(mask) then on else p.d) && r.i == (if Bit2(mask) then on else p.i)
              && r.c == (if Bit0(mask) then on else p.c)
    {
      hide Bit0, Bit1, Bit2, Bit3, Bit4, Bit5, Bit6, Bit7;
    }

    method MaskFlags(value: Byte, v: bool)
      modifies `p, `flagN, `flagZ
      ensures St() == Masked(old(St()), emul, value, v)
    {
      hide Bit0, Bit1, Bit2, Bit3, Bit4, Bit5, Bit6, Bit7, Masked, MaskP, Core.St;
      ghost var st := St();
      StFields();
      MaskedFields(st, emul, value, v);
      MaskNZ(value, v);
      MaskPFields(p, emul, value, v);
      p := MaskP(p, emul, value, v);
      StFields();
      Flagwise(St(), Masked(st, emul, value, v));
    }

    lemma StFields()
      ensures St().n == Bit7(flagN) && St().z == (flagZ == 0)
      ensures St().v == p.v && St().m == p.m && St().x == p.x && St().d == p.d && St().i == p.i && St().c == p.c
    {
    }

    static lemma MaskedFields(st: Status, emul: bool, mask: Byte, on: bool)
      ensures var r := Masked(st, emul, mask, on);
              r.n == (if Bit7(mask) then on else st.n) && r.v == (if Bit6(mask) then on else st.v)
              && r.m == (if Bit5(mask) && !emul then on else st.m) && r.x == (if Bit4(mask) && !emul then on else st.x)
              && r.d == (if Bit3(mask) then on else st.d) && r.i == (if Bit2(mask) then on else st.i)
              && r.z == (if Bit1(mask) then on else st.z) && r.c == (if Bit0(mask) then on else st.c)
    {
      hide Bit0, Bit1, Bit2, Bit3, Bit4, Bit5, Bit6, Bit7;
    }

    static lemma Flagwise(a: Status, b: Status)
      requires a.n == b.n && a.v == b.v && a.m == b.m && a.x == b.x
      requires a.d == b.d && a.i == b.i && a.z == b.z && a.c == b.c
      ensures a == b
    {
    }

    method RepSepMask(value: Byte, v: bool)
      modifies `p, `flagN, `flagZ, `x, `y
      ensures View() == RepSep(old(View()), value, v)
    {
      hide Masked, Bit4, Lo, Core.St;
      MaskFlags(value, v);
      if Bit4(value) && !emul && v {
        x := Lo(x);
        y := Lo(y);
      }
    }

    method ExchangeCE()
      modifies `p, `emul, `x, `y, `sp
      ensures View() == Xce(old(View()))
    {
      hide Bit7, Lo;
      if p.c != emul {
        if p.c {
          emul := true;
          p := p.(c := false);
          p := p.(x := false);
          x := Lo(x);
          y := Lo(y);
          sp := 0x100 + Lo(sp);
        } else {
          emul := false;
          p := p.(c := true);
          p := p.(m := true);
          p := p.(x := true);
        }
      }
    }

    /** Three stack accesses of the reset sequence; they only move the pointer. */
    method ResetSp()
      modifies `sp
      ensures View() == old(View()).(sp := 0x100 + U8(old(sp) - 3)) && old(View()).sp == old(sp)
    {
      hide U8, Lo;
      ResetStack(sp);
      sp := 0x100 + Lo(sp);
      sp := 0x100 + U8(sp - 1);
      sp := 0x100 + U8(sp - 1);
      sp := 0x100 + U8(sp - 1);
    }

    method Res()
      modifies this
      ensures View() == ResetState(old(View()))
    {
      hide Bit7, Lo, U8, Core.View;
      ResetSp();
      ResetRegisters();
    }

    /** LOCAL_SET_BREAK(0), LOCAL_SET_INTERRUPT(1) and LOCAL_SET_DECIMAL(0). */
    method ResetFlags()
      modifies `p
      ensures St() == old(St()).(x := false, i := true, d := false)
    {
      hide Bit7;
      p := p.(x := false, i := true, d := false);
    }

    method ResetBanks()
      modifies `dpr, `dbr, `pbr, `pc, `emul
      ensures var s := old(View());
              View() == s.(emul := true, dpr := 0, dbr := 0, pbr := 0, pc := Pair(Peek(s.mem, 0xfffc), Peek(s.mem, 0xfffd)))
    {
      hide Core.St;
      emul := true;
      dpr, dbr, pbr := 0, 0, 0;
      pc := Pair(LoadLong(0xfffc), LoadLong(0xfffd));
    }

    method ResetRegisters()
      modifies this
      ensures View() == ResetState(old(View())).(sp := old(View()).sp)
    {
      hide Core.St, Lo, U8, Isa65816.Peek;
      ResetBanks();
      x := Lo(x);
      y := Lo(y);
      ResetFlags();
    }

    static lemma ResetStack(sp: Word)
      ensures 0x100 + U8(0x100 + U8(0x100 + U8(0x100 + Lo(sp) - 1) - 1) - 1) == 0x100 + U8(sp - 3)
    {
    }

    // ---- block move ----

    /** The operand bytes, and the program counter behind them when this is the last execution. */
    method MoveOperands() returns (p1: Byte)
      modifies `pc, `dbr
      ensures p1 == Fetch(old(View()), if c == 0 then U16(old(pc) + 1) else old(pc) + 1)
      ensures dbr == Fetch(old(View()), if c == 0 then U16(old(pc) + 2) else old(pc) + 2)
      ensures pc == if c == 0 then U16(old(pc) + 3) else old(pc)
    {
      hide U16, Core.St;
      Mod16(pc + 1, 1);
      Mod16(pc + 2, 1);
      if c == 0 {
        pc := U16(pc + 1);
        p1 := FetchParam(pc);
        pc := U16(pc + 1);
        dbr := FetchParam(pc);
        pc := U16(pc + 1);
      } else {
        p1 := FetchParam(pc + 1);
        dbr := FetchParam(pc + 2);
      }
    }

    method MoveMacro(logic: int)
      requires logic == 1 || logic == -1
      modifies this
      ensures View() == Move(old(View()), logic)
    {
      hide Lo, U16, Fetch, Truncated, Core.St;
      var p1 := MoveOperands();
      var tmp := LoadLong(x + 0x10000 * dbr);
      dbr := p1;
      mem := mem[y + 0x10000 * dbr := tmp];
      x := U16(x + logic);
      y := U16(y + logic);
      c := U16(c - 1);
      TruncateIndex();
    }

    // ---- calls and returns ----

    /** Pushes do not depend on the program counter. */
    static lemma PushesKeepPc(s: Cpu, pc: Word, w: Word)
      ensures PushWord(s.(pc := pc), w) == PushWord(s, w).(pc := pc)
      ensures PushWordRaw(s.(pc := pc), w) == PushWordRaw(s, w).(pc := pc)
      ensures RawPush(s.(pc := pc), s.pbr) == RawPush(s, s.pbr).(pc := pc)
    {
      hide U8, U16, Lo, Hi;
    }

    method JsrAbs()
      modifies this
      ensures View() == Jsr(old(View()))
    {
      hide U16, PushWord, Core.St;
      PushesKeepPc(View(), U16(pc + 2), U16(pc + 2));
      Mod16(pc, 1);
      Mod16(pc + 1, 1);
      pc := U16(pc + 1);
      var p1 := FetchParam(pc);
      pc := U16(pc + 1);
      var p2 := FetchParam(pc);
      PushTwoBytes(pc);
      pc := Pair(p1, p2);
    }

    /** The low byte of the operand, and the return address on the stack. */
    method PushIndexedReturn() returns (p1: Byte)
      modifies `mem, `sp, `pc
      ensures var s := old(View());
              p1 == Fetch(s, U16(s.pc + 1)) && View() == PushWordRaw(s, U16(s.pc + 2)).(pc := U16(s.pc + 2))
    {
      hide U16, PushWordRaw, Core.St;
      PushesKeepPc(View(), U16(pc + 2), U16(pc + 2));
      Mod16(pc + 1, 1);
      pc := U16(pc + 1);
      p1 := FetchParam(pc);
      pc := U16(pc + 1);
      PushTwoRaw(pc);
    }

    method JsrIndX()
      modifies this
      ensures View() == JsrIndexed(old(View()))
    {
      hide U16, PushWordRaw, Core.St;
      var p1 := PushIndexedReturn();
      var p2 := FetchParam(pc);
      var ea: int := U16(p1 + 0x100 * p2 + x);
      pc := Pair(FetchParam(ea), FetchParam(U16(ea + 1)));
    }

    /** The two low bytes of the target; the program counter moves on to the bank byte. */
    method LongOperands() returns (target: Word)
      modifies `pc
      ensures var s := old(View());
              View() == s.(pc := U16(s.pc + 3))
              && target == Pair(Fetch(s, U16(s.pc + 1)), Fetch(s, U16(s.pc + 2)))
    {
      hide U16, Core.St;
      Mod16(pc + 1, 1);
      Mod16(pc + 2, 1);
      pc := U16(pc + 1);
      var p1 := FetchParam(pc);
      pc := U16(pc + 1);
      var p2 := FetchParam(pc);
      pc := U16(pc + 1);
      target := Pair(p1, p2);
    }

    /** The old bank goes onto the stack, then the new one is fetched. */
    method SwapBank()
      modifies `mem, `sp, `pbr
      ensures var t := RawPush(old(View()), old(View()).pbr);
              View() == t.(pbr := Fetch(t, t.pc))
    {
      hide U16, U8, Core.St;
      Mod8Byte(pbr);
      PushRaw(pbr);
      pbr := FetchParam(pc);
    }

    method JumpTo(addr: Word)
      modifies `pc
      ensures View() == old(View()).(pc := addr)
    {
      hide Core.St;
      pc := addr;
    }

    method JsrLong()
      modifies this
      ensures View() == Jsl(old(View()))
    {
      hide U16, PushWordRaw, RawPush, Core.View;
      ghost var s := View();
      var target := LongOperands();
      PushesKeepPc(s, U16(s.pc + 3), U16(s.pc + 3));
      SwapBank();
      ghost var t := RawPush(s, s.pbr);
      PushesKeepPc(t.(pbr := Fetch(t, U16(s.pc + 3))), U16(s.pc + 3), U16(s.pc + 3));
      PushReturn();
      JumpTo(target);
    }

    method PushReturn()
      modifies `mem, `sp
      ensures View() == PushWordRaw(old(View()), old(View()).pc)
    {
      hide PushWordRaw, Core.St;
      PushTwoRaw(pc);
    }

    method RtsMacro()
      modifies this
      ensures View() == Rts(old(View()))
    {
      hide U16, U8, Core.St;
      TwoUp(View());
      var low := PullByte();
      var high := PullByte();
      pc := Pair(low, high);
      pc := U16(pc + 1);
    }

    method RtlMacro()
      modifies this
      ensures View() == Rtl(old(View()))
    {
      hide U16, U8, Core.St;
      TwiceUp(sp);
      var low := PullRaw();
      var high := PullRaw();
      pc := Pair(low, high);
      pbr := PullRaw();
      if emul {
        sp := 0x100 + U8(sp);
      }
      pc := U16(pc + 1);
    }

    /** The return address; in native mode the bank, too. */
    method PullAddress()
      modifies `sp, `pc, `pbr
      ensures View() == PulledAddress(old(View()))
    {
      hide U16, U8, Core.St;
      ghost var s := View();
      TwoUp(s);
      var low := PullByte();
      ghost var t := View();
      TwoUp(t);
      var high := PullByte();
      pc := Pair(low, high);
      if !emul {
        pbr := PullByte();
      }
    }

    method RtiMacro()
      modifies this
      ensures View() == Rti(old(View()))
    {
      hide Core.View, LoadStatus, PulledAddress, Rti, StackUp, PulledAt;
      ghost var s := View();
      RtiParts(s);
      var tmp := PullByte();
      SetStatus(tmp);
      PullAddress();
    }

    static lemma RtiParts(s: Cpu)
      ensures Rti(s) == PulledAddress(LoadStatus(s.(sp := StackUp(s, 1)), PulledAt(s, 1)))
    {
      hide U8, U16, Unpacked, Lo;
      TwoUp(s);
    }

    /** LOCAL_STATUS in emulation mode, else LOCAL_65816_STATUS. */
    function StatusByte(): Byte
      reads `p, `flagN, `flagZ, `emul
    {
      Packed(Status(Bit7(flagN), p.v, emul || p.m, p.x, p.d, p.i, flagZ == 0, p.c))
    }

    method PushStatusByte()
      modifies `mem, `sp
      ensures View() == Push(old(View()), PushedStatus(old(View())))
    {
      hide U8, Packed, Bit7, Push;
      Mod8Byte(StatusByte());
      PushByte(StatusByte());
    }

    /** Through the vector, with D clear, I set and bank 0. */
    method Through(k: Trap)
      modifies `p, `pc, `pbr
      ensures var t := old(View());
              View() == t.(st := t.st.(d := false, i := true), pbr := 0,
                           pc := Pair(Peek(t.mem, Vector(k, t.emul)), Peek(t.mem, Vector(k, t.emul) + 1)))
    {
      hide Bit7;
      p := p.(d := false, i := true);
      var vector := Vector(k, emul);
      pc := Pair(LoadLong(vector), LoadLong(vector + 1));
      pbr := 0;
    }

    /** The break flag in emulation mode, the bank in native mode. */
    method EnterMode(k: Trap)
      modifies `p, `mem, `sp
      ensures var s := old(View());
              View() == if s.emul then s.(st := s.st.(x := k == Brk || k == Cop)) else Push(s, s.pbr)
    {
      hide Bit7, U8, Push;
      if emul {
        p := p.(x := k == Brk || k == Cop);
      } else {
        Mod8Byte(pbr);
        PushByte(pbr);
      }
    }

    static lemma PushesKeepStatus(b: Cpu, r: Word)
      ensures var q := PushWord(b.(pc := r), r);
              Push(q, PushedStatus(q)) == Push(PushWord(b, r), PushedStatus(b)).(pc := r)
              && Push(PushWord(b, r), PushedStatus(b)).emul == b.emul
    {
      hide U8, U16, Lo, Hi, Packed;
    }

    static lemma PushesKeepMode(b: Cpu, v: Byte)
      ensures Push(b, v).emul == b.emul && Push(b, v).pc == b.pc
    {
    }

    /** The two INC_PC of BRK and COP. */
    method SkipSignature()
      modifies `pc
      ensures View() == old(View()).(pc := U16(old(View()).pc + 2))
    {
      hide U16, Core.St;
      Mod16(pc + 1, 1);
      pc := U16(pc + 1);
      pc := U16(pc + 1);
    }

    method PushPcBytes()
      modifies `mem, `sp
      ensures View() == PushWord(old(View()), old(View()).pc)
    {
      hide PushWord, Core.St;
      PushTwoBytes(pc);
    }

    /** BRK, COP, IRQ and NMI. */
    method EnterMacro(k: Trap)
      modifies this
      ensures View() == Enter(old(View()), k)
    {
      hide U16, Push, PushWord, PushedStatus, Core.View, Vector;
      EnterMode(k);
      PushesKeepStatus(View(), ReturnPc(old(View()), k));
      PushesKeepMode(old(View()), old(View()).pbr);
      if k == Brk || k == Cop {
        SkipSignature();
      }
      PushPcBytes();
      PushStatusByte();
      Through(k);
    }
  }

  function PulledAddress(s: Cpu): Cpu {
    s.(pc := Pair(PulledAt(s, 1), PulledAt(s, 2)), pbr := if s.emul then s.pbr else PulledAt(s, 3),
       sp := StackUp(s, if s.emul then 2 else 3))
  }
}
