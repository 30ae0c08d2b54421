/** vice/src/6510dtvcore.c without C64DTV and with SKIP_CYCLE 0: the core that advances the clock cycle by cycle,
    between the memory accesses of an instruction.  Its instructions are written independently of the other core;
    read-modify-write instructions store the old value before the new one.  FETCH_OPCODE is that of
    vice/src/c64/c64cpusc.c.  The dummy reads are left out. */
module CycleCore {
  import opened Bits
  import opened Isa6510
  import opened Macros6510
  import opened OpcodeMatrix

  class Core {
    var pc: int
    var a: Byte
    var x: Byte
    var y: Byte
    var sp: Byte
    var p: RegP
    var flagN: Byte
    var flagZ: Byte
    var clk: int
    var mem: Memory

    /** What the operand bytes address in the zero page and beyond it. */
    lemma Addresses(p1: Byte, hi: Byte)
      ensures U8(p1) == p1 == U16(p1)
      ensures U8(U8(p1 + x)) == U8(p1 + x) == U16(U8(p1 + x)) && U8(U8(p1 + y)) == U8(p1 + y) == U16(U8(p1 + y))
      ensures U16(Pair(p1, hi)) == Pair(p1, hi) && Lo(Pair(p1, hi)) == p1 && Hi(Pair(p1, hi)) == hi
      ensures U16(ZeroWord(mem, p1 + x)) == ZeroWord(mem, p1 + x)
    {
    }

    static lemma NextInPage(lo: Byte, hi: Byte)
      ensures InPage(Pair(lo, hi), Pair(lo, hi) + 1) == Pair(U8(lo + 1), hi)
    {
    }

    ghost function Registers(): Regs
      reads `a, `x, `y, `sp, `p, `flagN, `flagZ
    {
      Regs(a, x, y, sp, LocalStatus(p, flagN, flagZ))
    }

    ghost function Visible(): Cpu
      reads this
    {
      Cpu(U16(pc), Registers(), mem, clk)
    }

    constructor (pc: int, mem: Memory, clk: int)
      ensures Visible() == Cpu(U16(pc), Regs(0, 0, 0, 0, Status(false, false, false, false, false, true, false)), mem, clk)
    {
      this.pc, this.mem, this.clk := pc, mem, clk;
      a, x, y, sp, flagN, flagZ := 0, 0, 0, 0, 0, 0;
      p := RegP(false, false, false, false, false);
    }

    // ---- memory and stack ----

    function Load(addr: int): Byte
      reads `mem
    {
      LoadFrom(mem, addr)
    }

    function LoadZero(addr: int): Byte
      reads `mem
    {
      Peek(mem, U8(addr))
    }

    method Store(addr: int, value: int)
      modifies `mem
      ensures mem == old(mem)[U16(addr) := U8(value)]
    {
      mem := StoreTo(mem, addr, value);
    }

    method StoreZero(addr: int, value: int)
      modifies `mem
      ensures mem == old(mem)[U8(addr) := U8(value)]
    {
      mem := mem[U8(addr) := U8(value)];
    }

    method PushByte(val: int)
      modifies `mem, `sp
      ensures mem == old(mem)[0x100 + old(sp) := U8(val)] && sp == U8(old(sp) - 1)
    {
      mem := StoreTo(mem, 0x100 + sp, val);
      sp := U8(sp - 1);
    }

    method PullByte() returns (v: Byte)
      modifies `sp
      ensures sp == U8(old(sp) + 1) && v == Peek(mem, 0x100 + sp)
    {
      sp := U8(sp + 1);
      v := Load(0x100 + sp);
    }

    method IncPc(value: int)
      modifies `pc
      ensures Visible() == Advance(old(Visible()), value, 0)
    {
      hide Core.Registers;
      pc := pc + value;
    }

    method LocalSetNZ(val: int)
      modifies `flagN, `flagZ
      ensures flagN == flagZ == U8(val)
    {
      flagN := U8(val);
      flagZ := flagN;
    }

    // ---- addressing modes ----

    method GetAbs(p2: Word) returns (dest: Byte)
      modifies `clk
      ensures dest == Peek(mem, U16(p2)) && clk == old(clk) + 1
    {
      dest := Load(p2);
      clk := clk + 1;
    }

    /** GET_ABS_X and GET_ABS_Y. */
    method GetAbsI(p2: Word, index: Byte) returns (dest: Byte)
      modifies `clk
      ensures dest == Peek(mem, U16(p2 + index)) && clk == old(clk) + 1 + Num(Lo(p2) + index > 0xff)
    {
      if Lo(p2) + index > 0xff {
        clk := clk + 1;
      }
      dest := Load(p2 + index);
      clk := clk + 1;
    }

    /** GET_ABS_X_RMW and GET_ABS_Y_RMW. */
    method GetAbsIRmw(p2: Word, index: Byte) returns (dest: Byte)
      modifies `clk
      ensures dest == Peek(mem, U16(p2 + index)) && clk == old(clk) + 2
    {
      clk := clk + 1;
      dest := Load(p2 + index);
      clk := clk + 1;
    }

    method GetZero(p1: Byte) returns (dest: Byte)
      modifies `clk
      ensures dest == Peek(mem, U8(p1)) && clk == old(clk) + 1
    {
      dest := LoadZero(p1);
      clk := clk + 1;
    }

    /** GET_ZERO_X and GET_ZERO_Y. */
    method GetZeroI(p1: Byte, index: Byte) returns (dest: Byte)
      modifies `clk
      ensures dest == Peek(mem, U8(p1 + index)) && clk == old(clk) + 2
    {
      clk := clk + 1;
      dest := LoadZero(p1 + index);
      clk := clk + 1;
    }

    method IntIndX(p1: Byte) returns (addr: Word)
      modifies `clk
      ensures addr == ZeroWord(mem, p1 + x) && clk == old(clk) + 3
    {
      hide U8;
      Mod8(p1 + x, 1);
      Mod8(p1 + x, 0);
      Mod8(p1 + x + 1, 0);
      clk := clk + 1;
      var tmpa: int := U8(p1 + x);
      addr := LoadZero(tmpa);
      clk := clk + 1;
      tmpa := U8(tmpa + 1);
      addr := addr + 0x100 * LoadZero(tmpa);
      clk := clk + 1;
    }

    /** INT_IND_Y_R and INT_IND_Y_W; only a write takes the extra cycle for certain. */
    method IntIndY(p1: Byte, write: bool) returns (addr: Word)
      modifies `clk
      ensures addr == U16(ZeroWord(mem, p1) + y)
      ensures clk == old(clk) + 2 + Num(write || Lo(ZeroWord(mem, p1)) + y > 0xff)
    {
      var tmpa: Word := LoadZero(p1);
      clk := clk + 1;
      tmpa := tmpa + 0x100 * LoadZero(p1 + 1);
      clk := clk + 1;
      if write || Lo(tmpa) + y > 0xff {
        clk := clk + 1;
      }
      addr := U16(tmpa + y);
    }

    /** SET_ABS_RMW, SET_ABS_X_RMW, SET_ABS_Y_RMW and SET_IND_RMW: the old value is written back first. */
    method SetRmw(addr: int, oldValue: Byte, newValue: int)
      modifies `mem, `clk
      ensures mem == old(mem)[U16(addr) := U8(newValue)] && clk == old(clk) + 2
    {
      Store(addr, oldValue);
      clk := clk + 1;
      Store(addr, newValue);
      clk := clk + 1;
    }

    /** SET_ZERO_RMW, SET_ZERO_X_RMW and SET_ZERO_Y_RMW. */
    method SetZeroRmw(addr: int, oldValue: Byte, newValue: int)
      modifies `mem, `clk
      ensures mem == old(mem)[U8(addr) := U8(newValue)] && clk == old(clk) + 2
    {
      StoreZero(addr, oldValue);
      clk := clk + 1;
      StoreZero(addr, newValue);
      clk := clk + 1;
    }

    static lemma HighPlusOne(addr: Word)
      ensures U8(addr / 0x100 + 1) == U8(Hi(addr) + 1)
    {
    }

    /** SET_ABS_SH_I; stolen: the main processor signals a stolen cycle. */
    method SetAbsShI(addr: Word, regAnd: Byte, regI: Byte, stolen: bool)
      modifies `mem, `clk
      ensures var masked := And(regAnd, U8(Hi(addr) + 1));
              mem == old(mem)[(if Lo(addr) + regI > 0xff then Pair(Lo(addr + regI), masked) else U16(addr + regI)) :=
                              if stolen then regAnd else masked]
      ensures clk == old(clk) + 1
    {
      hide And, U16, U8, Lo, Hi;
      HighPlusOne(addr);
      var tmp3 := And(regAnd, U8(addr / 0x100 + 1));
      Mod16Word(Pair(Lo(addr + regI), tmp3));
      Mod8Byte(tmp3);
      Mod8Byte(regAnd);
      var value := if stolen then regAnd else tmp3;
      var tmp2: int := addr + regI;
      if Lo(addr) + regI > 0xff {
        tmp2 := Pair(Lo(tmp2), tmp3);
      }
      Store(tmp2, value);
      clk := clk + 1;
    }

    // ---- operations on a byte that has been got ----

    method Adc(value: Byte)
      modifies `a, `p, `flagN, `flagZ
      ensures Registers() == ReadEffect(ADC, old(Registers()), value)
    {
      hide Add;
      a, flagN, flagZ, p := AdcMacro(a, value, p, Registers().st);
    }

    method Sbc(src: Byte)
      modifies `a, `p, `flagN, `flagZ
      ensures Registers() == ReadEffect(SBC, old(Registers()), src)
    {
      hide Subtract;
      a, flagN, flagZ, p := SbcMacro(a, src, p, Registers().st);
    }

    /** CP: CMP, CPX and CPY. */
    method Cp(ghost op: ReadOp, reg: Byte, value: Byte)
      requires (op == CMP && reg == a) || (op == CPX && reg == x) || (op == CPY && reg == y)
      modifies `p, `flagN, `flagZ
      ensures Registers() == ReadEffect(op, old(Registers()), value)
    {
      hide Bit7, Bit8;
      Wrapped(reg - value);
      var tmp := U32(reg - value);
      p := p.(c := tmp < 0x100);
      LocalSetNZ(U8(tmp));
    }

    method Ora(value: Byte)
      modifies `a, `flagN, `flagZ
      ensures Registers() == ReadEffect(ORA, old(Registers()), value)
    {
      hide Or;
      a := Or(a, value);
      LocalSetNZ(a);
    }

    method AndA(value: Byte)
      modifies `a, `flagN, `flagZ
      ensures Registers() == ReadEffect(AND, old(Registers()), value)
    {
      hide And;
      a := And(a, value);
      LocalSetNZ(a);
    }

    method Eor(value: Byte)
      modifies `a, `flagN, `flagZ
      ensures Registers() == ReadEffect(EOR, old(Registers()), value)
    {
      hide Xor;
      a := Xor(a, value);
      LocalSetNZ(a);
    }

    /** LD with reg_a, reg_x or reg_y as its destination. */
    method Ld(op: ReadOp, value: Byte)
      requires op == LDA || op == LDX || op == LDY
      modifies `a, `x, `y, `flagN, `flagZ
      ensures Registers() == ReadEffect(op, old(Registers()), value)
    {
      hide Bit7, U8;
      Mod8Byte(value);
      if op == LDA {
        a := value;
      } else if op == LDX {
        x := value;
      } else {
        y := value;
      }
      LocalSetNZ(value);
    }

    method Lax(value: Byte)
      modifies `a, `x, `flagN, `flagZ
      ensures Registers() == ReadEffect(LAX, old(Registers()), value)
    {
      x := value;
      a := x;
      LocalSetNZ(a);
    }

    method Las(value: Byte)
      modifies `a, `x, `sp, `flagN, `flagZ
      ensures Registers() == ReadEffect(LAS, old(Registers()), value)
    {
      hide And;
      sp := And(sp, value);
      x := sp;
      a := x;
      LocalSetNZ(a);
    }

    method Anc(value: Byte)
      modifies `a, `p, `flagN, `flagZ
      ensures Registers() == ReadEffect(ANC, old(Registers()), value)
    {
      hide And;
      a := And(a, value);
      LocalSetNZ(a);
      p := p.(c := Bit7(flagN));
    }

    method Asr(value: Byte)
      modifies `a, `p, `flagN, `flagZ
      ensures Registers() == ReadEffect(ASR, old(Registers()), value)
    {
      hide And;
      var tmp := And(a, value);
      p := p.(c := Bit0(tmp));
      a := tmp / 2;
      LocalSetNZ(a);
    }

    method Arr(value: Byte)
      modifies `a, `p, `flagN, `flagZ
      ensures Registers() == ReadEffect(ARR, old(Registers()), value)
    {
      hide And, RotateAnded;
      a, flagN, flagZ, p := ArrMacro(And(a, value), p, Registers().st);
    }

    method Ane(value: Byte)
      modifies `a, `flagN, `flagZ
      ensures Registers() == ReadEffect(ANE, old(Registers()), value)
    {
      hide And;
      a := And(x, value);
      LocalSetNZ(a);
    }

    method Lxa(value: Byte)
      modifies `a, `x, `flagN, `flagZ
      ensures Registers() == ReadEffect(LXA, old(Registers()), value)
    {
      hide And, Or;
      x := And(Or(a, 0xee), value);
      a := x;
      LocalSetNZ(a);
    }

    method BitTest(tmp: Byte)
      modifies `p, `flagN, `flagZ
      ensures Registers() == ReadEffect(BIT, old(Registers()), tmp)
    {
      hide And;
      flagN := if Bit7(tmp) then 0x80 else 0;
      p := p.(v := Bit6(tmp));
      flagZ := if And(tmp, a) != 0 then 1 else 0;
    }

    method Sbx(value: Byte)
      modifies `x, `p, `flagN, `flagZ
      ensures Registers() == ReadEffect(SBX, old(Registers()), value)
    {
      hide And;
      var tmp := U32(And(a, x) - value);
      Wrapped(And(a, x) - value);
      p := p.(c := tmp < 0x100);
      x := U8(tmp);
      LocalSetNZ(x);
    }

    lemma NoopEffect()
      ensures forall v: Byte :: ReadEffect(NOP, Registers(), v) == Registers()
      ensures TransferEffect(NOPI, Registers()) == Registers()
    {
    }

    /** The read instructions after their get_func. */
    method Alu(op: ReadOp, value: Byte, pcInc: int)
      modifies this
      ensures Visible() == Advance(old(Visible()).(r := ReadEffect(op, old(Registers()), value)), pcInc, 0)
    {
      hide ReadEffect, Advance, Core.Registers;
      match op {
        case ADC => Adc(value);
        case SBC => Sbc(value);
        case CPY => Cp(CPY, y, value);
        case CPX => Cp(CPX, x, value);
        case CMP => Cp(CMP, a, value);
        case ORA => Ora(value);
        case AND => AndA(value);
        case EOR => Eor(value);
        case LDA => Ld(LDA, value);
        case LDX => Ld(LDX, value);
        case LDY => Ld(LDY, value);
        case LAX => Lax(value);
        case LAS => Las(value);
        case ANC => Anc(value);
        case ASR => Asr(value);
        case ARR => Arr(value);
        case ANE => Ane(value);
        case LXA => Lxa(value);
        case BIT => BitTest(value);
        case SBX => Sbx(value);
        case NOP => NoopEffect();
      }
      IncPc(pcInc);
    }

    // ---- read-modify-write operations: what happens between get_func and set_func ----

    method Asl(oldValue: Byte) returns (newValue: int)
      modifies `p, `flagN, `flagZ
      ensures Registers() == ModifyEffect(ASL, old(Registers()), oldValue)
      ensures U8(newValue) == Shifted(ASL, oldValue, old(Registers()).st.c)
    {
      p := p.(c := Bit7(oldValue));
      newValue := U8(2 * oldValue);
      LocalSetNZ(newValue);
    }

    method Rol(oldValue: Byte) returns (newValue: int)
      modifies `p, `flagN, `flagZ
      ensures Registers() == ModifyEffect(ROL, old(Registers()), oldValue)
      ensures U8(newValue) == Shifted(ROL, oldValue, old(Registers()).st.c)
    {
      hide Bit7, Bit8, U8;
      newValue := 2 * oldValue + Num(p.c);
      CarryOut(oldValue, p.c);
      Mod8(newValue, 0);
      p := p.(c := Bit8(newValue));
      LocalSetNZ(U8(newValue));
    }

    method Lsr(oldValue: Byte) returns (newValue: int)
      modifies `p, `flagN, `flagZ
      ensures Registers() == ModifyEffect(LSR, old(Registers()), oldValue)
      ensures U8(newValue) == Shifted(LSR, oldValue, old(Registers()).st.c)
    {
      p := p.(c := Bit0(oldValue));
      newValue := oldValue / 2;
      LocalSetNZ(newValue);
    }

    method Ror(oldValue: Byte) returns (newValue: int)
      modifies `p, `flagN, `flagZ
      ensures Registers() == ModifyEffect(ROR, old(Registers()), oldValue)
      ensures U8(newValue) == Shifted(ROR, oldValue, old(Registers()).st.c)
    {
      hide Bit0, U8;
      RotatedRight(oldValue, p.c);
      newValue := oldValue;
      if p.c {
        newValue := newValue + 0x100;
      }
      p := p.(c := Bit0(newValue));
      newValue := newValue / 2;
      Mod8Byte(newValue);
      LocalSetNZ(newValue);
    }

    method Dec(oldValue: Byte) returns (newValue: int)
      modifies `flagN, `flagZ
      ensures Registers() == ModifyEffect(DEC, old(Registers()), oldValue)
      ensures U8(newValue) == Shifted(DEC, oldValue, old(Registers()).st.c)
    {
      newValue := U8(oldValue - 1);
      LocalSetNZ(newValue);
    }

    method Inc(oldValue: Byte) returns (newValue: int)
      modifies `flagN, `flagZ
      ensures Registers() == ModifyEffect(INC, old(Registers()), oldValue)
      ensures U8(newValue) == Shifted(INC, oldValue, old(Registers()).st.c)
    {
      newValue := U8(oldValue + 1);
      LocalSetNZ(newValue);
    }

    method Slo(oldValue: Byte) returns (newValue: int)
      modifies `a, `p, `flagN, `flagZ
      ensures Registers() == ModifyEffect(SLO, old(Registers()), oldValue)
      ensures U8(newValue) == Shifted(SLO, oldValue, old(Registers()).st.c)
    {
      hide Or;
      p := p.(c := Bit7(oldValue));
      newValue := 2 * oldValue;
      a := Or(a, U8(newValue));
      LocalSetNZ(a);
    }

    method Rla(oldValue: Byte) returns (newValue: int)
      modifies `a, `p, `flagN, `flagZ
      ensures Registers() == ModifyEffect(RLA, old(Registers()), oldValue)
      ensures U8(newValue) == Shifted(RLA, oldValue, old(Registers()).st.c)
    {
      hide And, Bit7, Bit8, U8;
      newValue := 2 * oldValue + Num(p.c);
      CarryOut(oldValue, p.c);
      p := p.(c := Bit8(newValue));
      a := And(a, U8(newValue));
      Mod8Byte(a);
      LocalSetNZ(a);
    }

    method Sre(oldValue: Byte) returns (newValue: int)
      modifies `a, `p, `flagN, `flagZ
      ensures Registers() == ModifyEffect(SRE, old(Registers()), oldValue)
      ensures U8(newValue) == Shifted(SRE, oldValue, old(Registers()).st.c)
    {
      hide Xor;
      p := p.(c := Bit0(oldValue));
      newValue := oldValue / 2;
      a := Xor(a, newValue);
      LocalSetNZ(a);
    }

    method Rra(oldValue: Byte) returns (newValue: int)
      modifies `a, `p, `flagN, `flagZ
      ensures Registers() == ModifyEffect(RRA, old(Registers()), oldValue)
      ensures U8(newValue) == Shifted(RRA, oldValue, old(Registers()).st.c)
    {
      hide Add, Bit7;
      newValue := oldValue;
      if p.c {
        newValue := newValue + 0x100;
      }
      p := p.(c := Bit0(newValue));
      newValue := newValue / 2;
      a, flagN, flagZ, p := AdcMacro(a, newValue, p, Registers().st);
    }

    method Dcp(oldValue: Byte) returns (newValue: int)
      modifies `p, `flagN, `flagZ
      ensures Registers() == ModifyEffect(DCP, old(Registers()), oldValue)
      ensures U8(newValue) == Shifted(DCP, oldValue, old(Registers()).st.c)
    {
      newValue := U8(oldValue - 1);
      p := p.(c := a >= newValue);
      LocalSetNZ(a - newValue);
    }

    method Isb(oldValue: Byte) returns (newValue: int)
      modifies `a, `p, `flagN, `flagZ
      ensures Registers() == ModifyEffect(ISB, old(Registers()), oldValue)
      ensures U8(newValue) == Shifted(ISB, oldValue, old(Registers()).st.c)
    {
      hide Subtract;
      newValue := U8(oldValue + 1);
      a, flagN, flagZ, p := SbcMacro(a, newValue, p, Registers().st);
    }

    method ModifyValue(op: ModifyOp, oldValue: Byte) returns (newValue: int)
      modifies `a, `p, `flagN, `flagZ
      ensures Registers() == ModifyEffect(op, old(Registers()), oldValue)
      ensures U8(newValue) == Shifted(op, oldValue, old(Registers()).st.c)
    {
      hide ModifyEffect, Shifted, Core.Registers;
      match op {
        case ASL => newValue := Asl(oldValue);
        case ROL => newValue := Rol(oldValue);
        case LSR => newValue := Lsr(oldValue);
        case ROR => newValue := Ror(oldValue);
        case DEC => newValue := Dec(oldValue);
        case INC => newValue := Inc(oldValue);
        case SLO => newValue := Slo(oldValue);
        case RLA => newValue := Rla(oldValue);
        case SRE => newValue := Sre(oldValue);
        case RRA => newValue := Rra(oldValue);
        case DCP => newValue := Dcp(oldValue);
        case ISB => newValue := Isb(oldValue);
      }
    }

    /** The rest of a read-modify-write instruction after its get_func, with one of the 16-bit set_funcs. */
    method ModifyAt(op: ModifyOp, oldValue: Byte, addr: int, pcInc: int)
      requires oldValue == Peek(mem, U16(addr))
      modifies this
      ensures Visible() == Advance(Modified(op, old(Visible()), U16(addr)), pcInc, 2)
    {
      hide ModifyEffect, Shifted, Core.Registers, U16, U8;
      Mod16(pc, pcInc);
      var newValue := ModifyValue(op, oldValue);
      pc := pc + pcInc;
      SetRmw(addr, oldValue, newValue);
    }

    /** The same with a zero page set_func. */
    method ModifyZeroAt(op: ModifyOp, oldValue: Byte, addr: int, pcInc: int)
      requires oldValue == Peek(mem, U8(addr))
      modifies this
      ensures Visible() == Advance(Modified(op, old(Visible()), U8(addr)), pcInc, 2)
    {
      hide ModifyEffect, Shifted, Core.Registers, U16, U8;
      Mod16(pc, pcInc);
      var newValue := ModifyValue(op, oldValue);
      pc := pc + pcInc;
      SetZeroRmw(addr, oldValue, newValue);
    }

    // ---- accumulator, transfer and flag instructions ----

    method AslA()
      modifies `a, `p, `flagN, `flagZ
      ensures Registers() == AccumulatorEffect(ASL, old(Registers()))
    {
      p := p.(c := Bit7(a));
      a := U8(2 * a);
      LocalSetNZ(a);
    }

    method LsrA()
      modifies `a, `p, `flagN, `flagZ
      ensures Registers() == AccumulatorEffect(LSR, old(Registers()))
    {
      p := p.(c := Bit0(a));
      a := a / 2;
      LocalSetNZ(a);
    }

    method RolA()
      modifies `a, `p, `flagN, `flagZ
      ensures Registers() == AccumulatorEffect(ROL, old(Registers()))
    {
      hide Bit7, Bit8, U8;
      var tmp := 2 * a;
      CarryOut(a, false);
      Mod8Byte(U8(tmp + Num(p.c)));
      a := U8(tmp + Num(p.c));
      p := p.(c := Bit8(tmp));
      LocalSetNZ(a);
    }

    method RorA()
      modifies `a, `p, `flagN, `flagZ
      ensures Registers() == AccumulatorEffect(ROR, old(Registers()))
    {
      var tmp := a;
      a := a / 2 + 0x80 * Num(p.c);
      p := p.(c := Bit0(tmp));
      LocalSetNZ(a);
    }

    method AccumulatorOp(op: ModifyOp, ghost lo: Byte, ghost hi: Byte, ghost s: Cpu)
      requires op == ASL || op == LSR || op == ROL || op == ROR
      requires Visible() == s.(clk := s.clk + 2)
      modifies this
      ensures Visible() == Exec(Accumulator(op), s, lo, hi)
    {
      hide AccumulatorEffect, Core.Registers;
      if op == ASL {
        AslA();
      } else if op == LSR {
        LsrA();
      } else if op == ROL {
        RolA();
      } else {
        RorA();
      }
      IncPc(1);
    }

    method Move(op: ImpliedOp)
      requires op == TAX || op == TAY || op == TXA || op == TYA || op == TSX || op == TXS
      modifies `a, `x, `y, `sp, `flagN, `flagZ
      ensures Registers() == TransferEffect(op, old(Registers()))
    {
      hide Bit7, U8;
      Mod8Byte(a);
      Mod8Byte(x);
      Mod8Byte(y);
      Mod8Byte(sp);
      if op == TAX {
        x := a;
        LocalSetNZ(a);
      } else if op == TAY {
        y := a;
        LocalSetNZ(a);
      } else if op == TXA {
        a := x;
        LocalSetNZ(a);
      } else if op == TYA {
        a := y;
        LocalSetNZ(a);
      } else if op == TSX {
        x := sp;
        LocalSetNZ(sp);
      } else {
        sp := x;
      }
    }

    method Count(op: ImpliedOp)
      requires op == DEX || op == DEY || op == INX || op == INY
      modifies `x, `y, `flagN, `flagZ
      ensures Registers() == TransferEffect(op, old(Registers()))
    {
      hide Bit7, U8;
      if op == DEX {
        x := U8(x - 1);
        Mod8Byte(x);
        LocalSetNZ(x);
      } else if op == DEY {
        y := U8(y - 1);
        Mod8Byte(y);
        LocalSetNZ(y);
      } else if op == INX {
        x := U8(x + 1);
        Mod8Byte(x);
        LocalSetNZ(x);
      } else {
        y := U8(y + 1);
        Mod8Byte(y);
        LocalSetNZ(y);
      }
    }

    method SetFlag(op: ImpliedOp)
      requires op == CLC || op == SEC || op == CLI || op == SEI || op == CLV || op == CLD || op == SED
      modifies `p
      ensures Registers() == TransferEffect(op, old(Registers()))
    {
      if op == CLC {
        p := p.(c := false);
      } else if op == SEC {
        p := p.(c := true);
      } else if op == CLI {
        p := p.(i := false);
      } else if op == SEI {
        p := p.(i := true);
      } else if op == CLV {
        p := p.(v := false);
      } else if op == CLD {
        p := p.(d := false);
      } else {
        p := p.(d := true);
      }
    }

    method Transfer(op: ImpliedOp)
      requires op != PHA && op != PHP && op != PLA && op != PLP
      modifies `a, `x, `y, `sp, `p, `flagN, `flagZ
      ensures Registers() == TransferEffect(op, old(Registers()))
    {
      if op == NOPI {
      } else if op == DEX || op == DEY || op == INX || op == INY {
        Count(op);
      } else if op == CLC || op == SEC || op == CLI || op == SEI || op == CLV || op == CLD || op == SED {
        SetFlag(op);
      } else {
        Move(op);
      }
    }

    /** LOCAL_SET_STATUS. */
    method LocalSetStatus(val: Byte)
      modifies `p, `flagN, `flagZ
      ensures Registers() == old(Registers()).(st := Unpacked(val))
    {
      p := RegP(Bit6(val), Bit4(val), Bit3(val), Bit2(val), Bit0(val));
      flagZ := if Bit1(val) then 0 else 1;
      flagN := val;
    }

    method Pha()
      modifies `mem, `sp, `clk
      ensures Visible() == ImpliedEffect(PHA, old(Visible())).(clk := old(clk) + 1)
    {
      hide U8;
      Mod8Byte(a);
      PushByte(a);
      clk := clk + 1;
    }

    method Php()
      modifies `mem, `sp, `clk
      ensures Visible() == ImpliedEffect(PHP, old(Visible())).(clk := old(clk) + 1)
    {
      hide Packed, U8;
      var status := Packed(LocalStatus(p, flagN, flagZ).(b := true));
      Mod8Byte(status);
      PushByte(status);
      clk := clk + 1;
    }

    method Pla()
      modifies this
      ensures Visible() == ImpliedEffect(PLA, old(Visible())).(clk := old(clk) + 2)
    {
      hide Bit7, U8;
      clk := clk + 1;
      a := PullByte();
      Mod8Byte(a);
      clk := clk + 1;
      LocalSetNZ(a);
    }

    method Plp()
      modifies this
      ensures Visible() == ImpliedEffect(PLP, old(Visible())).(clk := old(clk) + 2)
    {
      hide Unpacked;
      clk := clk + 1;
      var s := PullByte();
      clk := clk + 1;
      LocalSetStatus(s);
    }

    method ImpliedBody(op: ImpliedOp)
      modifies this
      ensures Visible() == ImpliedEffect(op, old(Visible())).(clk := old(clk) + ImpliedCycles(op) - 2)
    {
      hide TransferEffect, Core.Registers, Packed, Unpacked, SetA, U8, U16;
      if op == PHA {
        Pha();
      } else if op == PHP {
        Php();
      } else if op == PLA {
        Pla();
      } else if op == PLP {
        Plp();
      } else {
        Transfer(op);
      }
    }

    method Implied(op: ImpliedOp, ghost lo: Byte, ghost hi: Byte, ghost s: Cpu)
      requires Visible() == s.(clk := s.clk + 2)
      modifies this
      ensures Visible() == Exec(Isa6510.Implied(op), s, lo, hi)
    {
      hide ImpliedEffect, ImpliedCycles, Exec, Core.Registers, U16;
      ImpliedExec(op, s, lo, hi);
      ImpliedClock(op, s, s.clk + 2);
      ImpliedPc(op, s);
      ImpliedBody(op);
      Mod16(pc, 1);
      pc := pc + 1;
    }

    // ---- stores ----

    /** The reg_and argument of SH_ABS_I. */
    function RegAnd(op: UnstableOp): Byte
      reads `a, `x, `y
    {
      match op
      case SHA => And(a, x)
      case SHX => x
      case SHY => y
      case SHS => And(a, x)
    }

    /** SH_ABS_I and SHS_ABS_Y. */
    method ShAbs(op: UnstableOp, ghost lo: Byte, p2: Word, stolen: bool, ghost hi: Byte, ghost s: Cpu)
      requires p2 == Pair(lo, hi) && Visible() == s.(clk := s.clk + 3)
      modifies this
      ensures var mode := if op == SHY then AbsoluteX else AbsoluteY;
              Visible() == Advance(UnstableStore(op, mode, s, lo, hi, stolen), 3, 5)
              && (!stolen ==> Visible() == Exec(Unstable(op, mode), s, lo, hi))
    {
      hide And, LocalStatus, U16, Lo, Hi, U8, Exec, UnstableStore, Advance;
      ShAbsolute(op, s, lo, hi, stolen);
      ShAbsoluteExec(op, s, lo, hi);
      Mod16(pc, 3);
      PairParts(lo, hi);
      Parts16(p2 + (if op == SHY then x else y));
      clk := clk + 1;
      SetAbsShI(p2, RegAnd(op), if op == SHY then x else y, stolen);
      pc := pc + 3;
      if op == SHS {
        sp := And(a, x);
      }
    }

    method ShaIndY(p1: Byte, stolen: bool, ghost hi: Byte, ghost s: Cpu)
      requires Visible() == s.(clk := s.clk + 2)
      modifies this
      ensures Visible() == Advance(UnstableStore(SHA, IndirectY, s, p1, hi, stolen), 2, 6)
      ensures !stolen ==> Visible() == Exec(Unstable(SHA, IndirectY), s, p1, hi)
    {
      hide And, LocalStatus, U16, Lo, Hi, U8, Exec, UnstableStore, Advance;
      ShaThroughPointer(s, p1, hi, stolen);
      ShaPointerExec(s, p1, hi);
      Mod16(pc, 2);
      var tmpa: Word := LoadZero(p1);
      clk := clk + 1;
      tmpa := tmpa + 0x100 * LoadZero(p1 + 1);
      clk := clk + 1;
      clk := clk + 1;
      Parts16(tmpa + y);
      SetAbsShI(tmpa, And(a, x), y, stolen);
      pc := pc + 2;
    }

    // ---- control flow ----

    method BranchIf(cond: bool, ghost flag: Flag, ghost taken: bool, p1: Byte, ghost hi: Byte, ghost s: Cpu)
      requires cond == (FlagOf(Registers().st, flag) == taken)
      requires Visible() == s.(clk := s.clk + 2)
      modifies `pc, `clk
      ensures Visible() == Exec(Branch(flag, taken), s, p1, hi)
    {
      hide Core.Registers, U16, Hi, FlagOf;
      Mod16(pc, 2);
      pc := pc + 2;
      Parts16(pc);
      if cond {
        var destAddr := pc + SignedChar(p1);
        Mod16(pc, SignedChar(p1));
        Parts16(destAddr);
        clk := clk + 1;
        if Hi(pc) != Hi(destAddr) {
          clk := clk + 1;
        }
        pc := U16(destAddr);
        Mod16Word(pc);
      }
    }

    method PushPc()
      modifies `mem, `sp, `clk
      ensures Visible() == PushWord(old(Visible()), U16(pc)).(clk := old(clk) + 2)
    {
      hide U16, Hi, Lo, U8, LocalStatus;
      Parts16(pc);
      PushedBytes(pc);
      PushByte(pc / 0x100);
      clk := clk + 1;
      PushByte(Lo(pc));
      clk := clk + 1;
    }

    static lemma PushedBytes(pc: int)
      ensures U8(pc / 0x100) == Hi(pc) && U8(Lo(pc)) == Lo(pc)
    {
    }

    method PushStatus()
      modifies `mem, `sp, `clk
      ensures Visible() == Push(old(Visible()), Packed(old(Registers()).st)).(clk := old(clk) + 1)
    {
      hide Packed, U8;
      Mod8Byte(Packed(LocalStatus(p, flagN, flagZ)));
      PushByte(Packed(LocalStatus(p, flagN, flagZ)));
      clk := clk + 1;
    }

    /** The vector fetch. */
    method JumpThrough(vector: Word)
      requires vector < 0xffff
      modifies `pc, `clk
      ensures pc == AbsWord(mem, vector) && clk == old(clk) + 2
    {
      var addr: Word := Load(vector);
      clk := clk + 1;
      addr := addr + 0x100 * Load(vector + 1);
      clk := clk + 1;
      pc := addr;
    }

    method DoIrqBrk(nmi: bool)
      modifies `mem, `sp, `p, `pc, `clk
      ensures Visible() == Enter(old(Visible()), U16(old(pc)), IrqVector(nmi)).(clk := old(clk) + 5)
    {
      hide U16, Hi, Lo, U8, Packed, AbsWord;
      var handlerVector := 0xfffe;
      PushPc();
      PushStatus();
      if nmi {
        handlerVector := 0xfffa;
      }
      p := p.(i := true);
      JumpThrough(handlerVector);
      Mod16Word(pc);
    }

    /** nmi: after the pushes an NMI is pending long enough. */
    method Brk(nmi: bool, ghost lo: Byte, ghost hi: Byte, ghost s: Cpu)
      requires Visible() == s.(clk := s.clk + 2)
      modifies this
      ensures Visible() == Trap(s, U16(s.pc + 2), true, IrqVector(nmi))
    {
      hide U16, U8, Hi, Lo, Packed, AbsWord;
      Mod16(pc, 2);
      pc := pc + 2;
      p := p.(b := true);
      DoIrqBrk(nmi);
    }

    /** An IRQ that is taken now; late: after the pushes an NMI is pending long enough. */
    method DoIrq(late: bool)
      modifies this
      ensures Visible() == Trap(old(Visible()), U16(old(pc)), false, IrqVector(late))
    {
      hide U16, U8, Hi, Lo, Packed, AbsWord;
      clk := clk + 1;
      clk := clk + 1;
      p := p.(b := false);
      DoIrqBrk(late);
    }

    method NmiSequence()
      modifies `mem, `sp, `p, `pc, `clk
      ensures Visible() == Enter(old(Visible()), U16(old(pc)), 0xfffa).(clk := old(clk) + 5)
    {
      hide U16, Hi, Lo, U8, Packed, AbsWord;
      PushPc();
      PushStatus();
      JumpThrough(0xfffa);
      p := p.(i := true);
      Mod16Word(pc);
    }

    /** An NMI that is taken now. */
    method DoNmi()
      modifies this
      ensures Visible() == Trap(old(Visible()), U16(old(pc)), false, 0xfffa)
    {
      hide U16, U8, Hi, Lo, Packed, AbsWord;
      clk := clk + 1;
      clk := clk + 1;
      p := p.(b := false);
      NmiSequence();
    }

    /** DO_INTERRUPT.  nmi, irq: pending, and the delay has passed; sei: the last instruction was a SEI. */
    method DoInterrupt(nmi: bool, irq: bool, sei: bool, late: bool)
      modifies this
      ensures Visible() == if nmi then Trap(old(Visible()), U16(old(pc)), false, 0xfffa)
                           else if irq && !Masked(old(Registers()).st, sei)
                           then Trap(old(Visible()), U16(old(pc)), false, IrqVector(late)) else old(Visible())
    {
      hide U16, Trap;
      if nmi {
        DoNmi();
      } else if irq && (!p.i || sei) {
        DoIrq(late);
      }
    }

    method Jsr(p1: Byte, ghost hi: Byte, ghost s: Cpu)
      requires Visible() == s.(clk := s.clk + 2)
      modifies this
      ensures Visible() == Exec(JSR, s, p1, hi)
    {
      hide U16, Hi, Lo, U8, LocalStatus;
      Mod16(pc, 2);
      clk := clk + 1;
      pc := pc + 2;
      PushPc();
      var addrMsb := Load(pc);
      clk := clk + 1;
      pc := Pair(p1, addrMsb);
      Mod16Word(pc);
    }

    method Rts(ghost lo: Byte, ghost hi: Byte, ghost s: Cpu)
      requires Visible() == s.(clk := s.clk + 2)
      modifies this
      ensures Visible() == Exec(RTS, s, lo, hi)
    {
      hide U16, U8, LocalStatus;
      Mod8(sp + 1, 1);
      clk := clk + 1;
      var tmp := PullByte();
      clk := clk + 1;
      var high := PullByte();
      clk := clk + 1;
      var dest: int := Pair(tmp, high);
      clk := clk + 1;
      // tmp++ on a uint16_t
      pc := U16(dest + 1);
      Mod16Word(pc);
    }

    method Rti(ghost lo: Byte, ghost hi: Byte, ghost s: Cpu)
      requires Visible() == s.(clk := s.clk + 2)
      modifies this
      ensures Visible() == Exec(RTI, s, lo, hi)
    {
      hide Unpacked, U8, Exec;
      RtiExec(s, lo, hi);
      Mod8(sp + 1, 1);
      Mod8(sp + 2, 1);
      clk := clk + 1;
      var tmp := PullByte();
      clk := clk + 1;
      LocalSetStatus(tmp);
      tmp := PullByte();
      clk := clk + 1;
      var high := PullByte();
      clk := clk + 1;
      pc := Pair(tmp, high);
    }

    method Jmp(ghost lo: Byte, p2: Word, ghost hi: Byte, ghost s: Cpu)
      requires p2 == Pair(lo, hi) && Visible() == s.(clk := s.clk + 3)
      modifies `pc
      ensures Visible() == Exec(JMP, s, lo, hi)
    {
      hide Core.Registers, U16;
      Mod16Word(p2);
      pc := p2;
    }

    method JmpInd(ghost lo: Byte, p2: Word, ghost hi: Byte, ghost s: Cpu)
      requires p2 == Pair(lo, hi) && Visible() == s.(clk := s.clk + 3)
      modifies `pc, `clk
      ensures Visible() == Exec(JMPI, s, lo, hi)
    {
      hide Core.Registers, U16, U8, Lo, Hi;
      NextInPage(lo, hi);
      Mod16Word(p2);
      Mod16Word(InPage(p2, p2 + 1));
      var dest := Load(p2);
      clk := clk + 1;
      var high := Load(InPage(p2, p2 + 1));
      clk := clk + 1;
      pc := Pair(dest, high);
      Mod16Word(pc);
    }

    // ---- the cases of the opcode switch, one method per operation class and addressing mode ----

    /** What STA, STX, STY and SAX store. */
    function Source(op: WriteOp): Byte
      reads `a, `x, `y
    {
      match op
      case STA => a
      case STX => x
      case STY => y
      case SAX => And(a, x)
    }

    /** ST: the program counter moves before the store. */
    method St(value: Byte, addr: int, pcInc: int)
      modifies `pc, `mem, `clk
      ensures Visible() == Advance(old(Visible()).(mem := old(mem)[U16(addr) := value]), pcInc, 1)
    {
      hide Core.Registers, U8, U16;
      Mod8Byte(value);
      Mod16(pc, pcInc);
      pc := pc + pcInc;
      Store(addr, value);
      clk := clk + 1;
    }

    method StZero(value: Byte, addr: int)
      modifies `pc, `mem, `clk
      ensures Visible() == Advance(old(Visible()).(mem := old(mem)[U8(addr) := value]), 2, 1)
    {
      hide Core.Registers, U8, U16;
      Mod8Byte(value);
      Mod16(pc, 2);
      pc := pc + 2;
      StoreZero(addr, value);
      clk := clk + 1;
    }

    method ReadImm(op: ReadOp, p1: Byte, ghost hi: Byte, ghost s: Cpu)
      requires Visible() == s.(clk := s.clk + 2)
      modifies this
      ensures Visible() == Exec(Read(op, Immediate), s, p1, hi)
    {
      hide ReadEffect, ModifyEffect, Shifted, And, U8, U16, Lo, Hi, ZeroWord, Core.Registers;
      Addresses(p1, hi);
      Alu(op, p1, 2);
    }

    method ReadZero(op: ReadOp, p1: Byte, ghost hi: Byte, ghost s: Cpu)
      requires Visible() == s.(clk := s.clk + 2)
      modifies this
      ensures Visible() == Exec(Read(op, Zero), s, p1, hi)
    {
      hide ReadEffect, ModifyEffect, Shifted, And, U8, U16, Lo, Hi, ZeroWord, Core.Registers;
      Addresses(p1, hi);
      var v := GetZero(p1);
      Alu(op, v, 2);
    }

    method ReadZeroX(op: ReadOp, p1: Byte, ghost hi: Byte, ghost s: Cpu)
      requires Visible() == s.(clk := s.clk + 2)
      modifies this
      ensures Visible() == Exec(Read(op, ZeroX), s, p1, hi)
    {
      hide ReadEffect, ModifyEffect, Shifted, And, U8, U16, Lo, Hi, ZeroWord, LocalStatus;
      Addresses(p1, hi);
      var v := GetZeroI(p1, x);
      Alu(op, v, 2);
    }

    method ReadZeroY(op: ReadOp, p1: Byte, ghost hi: Byte, ghost s: Cpu)
      requires Visible() == s.(clk := s.clk + 2)
      modifies this
      ensures Visible() == Exec(Read(op, ZeroY), s, p1, hi)
    {
      hide ReadEffect, ModifyEffect, Shifted, And, U8, U16, Lo, Hi, ZeroWord, LocalStatus;
      Addresses(p1, hi);
      var v := GetZeroI(p1, y);
      Alu(op, v, 2);
    }

    method ReadAbs(op: ReadOp, p1: Byte, p2: Word, ghost hi: Byte, ghost s: Cpu)
      requires p2 == Pair(p1, hi) && Visible() == s.(clk := s.clk + 3)
      modifies this
      ensures Visible() == Exec(Read(op, Absolute), s, p1, hi)
    {
      hide ReadEffect, ModifyEffect, Shifted, And, U8, U16, Lo, Hi, ZeroWord, Core.Registers;
      Addresses(p1, hi);
      var v := GetAbs(p2);
      Alu(op, v, 3);
    }

    method ReadAbsX(op: ReadOp, p1: Byte, p2: Word, ghost hi: Byte, ghost s: Cpu)
      requires p2 == Pair(p1, hi) && Visible() == s.(clk := s.clk + 3)
      modifies this
      ensures Visible() == Exec(Read(op, AbsoluteX), s, p1, hi)
    {
      hide ReadEffect, ModifyEffect, Shifted, And, U8, U16, Lo, Hi, ZeroWord, LocalStatus;
      Addresses(p1, hi);
      var v := GetAbsI(p2, x);
      Alu(op, v, 3);
    }

    method ReadAbsY(op: ReadOp, p1: Byte, p2: Word, ghost hi: Byte, ghost s: Cpu)
      requires p2 == Pair(p1, hi) && Visible() == s.(clk := s.clk + 3)
      modifies this
      ensures Visible() == Exec(Read(op, AbsoluteY), s, p1, hi)
    {
      hide ReadEffect, ModifyEffect, Shifted, And, U8, U16, Lo, Hi, ZeroWord, LocalStatus;
      Addresses(p1, hi);
      var v := GetAbsI(p2, y);
      Alu(op, v, 3);
    }

    method ReadIndX(op: ReadOp, p1: Byte, ghost hi: Byte, ghost s: Cpu)
      requires Visible() == s.(clk := s.clk + 2)
      modifies this
      ensures Visible() == Exec(Read(op, IndirectX), s, p1, hi)
    {
      hide ReadEffect, ModifyEffect, Shifted, And, U8, U16, Lo, Hi, ZeroWord, LocalStatus;
      Addresses(p1, hi);
      var addr := IntIndX(p1);
      var v := GetAbs(addr);
      Alu(op, v, 2);
    }

    method ReadIndY(op: ReadOp, p1: Byte, ghost hi: Byte, ghost s: Cpu)
      requires Visible() == s.(clk := s.clk + 2)
      modifies this
      ensures Visible() == Exec(Read(op, IndirectY), s, p1, hi)
    {
      hide ReadEffect, ModifyEffect, Shifted, And, U8, U16, Lo, Hi, ZeroWord, LocalStatus;
      Addresses(p1, hi);
      var addr := IntIndY(p1, false);
      var v := GetAbs(addr);
      Mod16(ZeroWord(s.mem, p1) + s.r.y, 0);
      Alu(op, v, 2);
    }

    method ModifyZero(op: ModifyOp, p1: Byte, ghost hi: Byte, ghost s: Cpu)
      requires Visible() == s.(clk := s.clk + 2)
      modifies this
      ensures Visible() == Exec(Modify(op, Zero), s, p1, hi)
    {
      hide ReadEffect, ModifyEffect, Shifted, And, U8, U16, Lo, Hi, ZeroWord, Core.Registers;
      Addresses(p1, hi);
      var v := GetZero(p1);
      ModifyZeroAt(op, v, p1, 2);
    }

    method ModifyZeroX(op: ModifyOp, p1: Byte, ghost hi: Byte, ghost s: Cpu)
      requires Visible() == s.(clk := s.clk + 2)
      modifies this
      ensures Visible() == Exec(Modify(op, ZeroX), s, p1, hi)
    {
      hide ReadEffect, ModifyEffect, Shifted, And, U8, U16, Lo, Hi, ZeroWord, LocalStatus;
      Addresses(p1, hi);
      var v := GetZeroI(p1, x);
      ModifyZeroAt(op, v, p1 + x, 2);
    }

    method ModifyAbs(op: ModifyOp, p1: Byte, p2: Word, ghost hi: Byte, ghost s: Cpu)
      requires p2 == Pair(p1, hi) && Visible() == s.(clk := s.clk + 3)
      modifies this
      ensures Visible() == Exec(Modify(op, Absolute), s, p1, hi)
    {
      hide ReadEffect, ModifyEffect, Shifted, And, U8, U16, Lo, Hi, ZeroWord, Core.Registers;
      Addresses(p1, hi);
      var v := GetAbs(p2);
      ModifyAt(op, v, p2, 3);
    }

    method ModifyAbsX(op: ModifyOp, p1: Byte, p2: Word, ghost hi: Byte, ghost s: Cpu)
      requires p2 == Pair(p1, hi) && Visible() == s.(clk := s.clk + 3)
      modifies this
      ensures Visible() == Exec(Modify(op, AbsoluteX), s, p1, hi)
    {
      hide Exec, ModifyEffect, Shifted, And, U8, U16, Lo, Hi, ZeroWord, LocalStatus;
      ModifyExec(op, AbsoluteX, s, p1, hi);
      Addresses(p1, hi);
      var v := GetAbsIRmw(p2, x);
      ModifyAt(op, v, p2 + x, 3);
    }

    method ModifyAbsY(op: ModifyOp, p1: Byte, p2: Word, ghost hi: Byte, ghost s: Cpu)
      requires p2 == Pair(p1, hi) && Visible() == s.(clk := s.clk + 3)
      modifies this
      ensures Visible() == Exec(Modify(op, AbsoluteY), s, p1, hi)
    {
      hide Exec, ModifyEffect, Shifted, And, U8, U16, Lo, Hi, ZeroWord, LocalStatus;
      ModifyExec(op, AbsoluteY, s, p1, hi);
      Addresses(p1, hi);
      var v := GetAbsIRmw(p2, y);
      ModifyAt(op, v, p2 + y, 3);
    }

    method ModifyIndX(op: ModifyOp, p1: Byte, ghost hi: Byte, ghost s: Cpu)
      requires Visible() == s.(clk := s.clk + 2)
      modifies this
      ensures Visible() == Exec(Modify(op, IndirectX), s, p1, hi)
    {
      hide ReadEffect, ModifyEffect, Shifted, And, U8, U16, Lo, Hi, ZeroWord, LocalStatus;
      Addresses(p1, hi);
      var addr := IntIndX(p1);
      var v := GetAbs(addr);
      ModifyAt(op, v, addr, 2);
    }

    method ModifyIndY(op: ModifyOp, p1: Byte, ghost hi: Byte, ghost s: Cpu)
      requires Visible() == s.(clk := s.clk + 2)
      modifies this
      ensures Visible() == Exec(Modify(op, IndirectY), s, p1, hi)
    {
      hide ReadEffect, ModifyEffect, Shifted, And, U8, U16, Lo, Hi, ZeroWord, LocalStatus;
      Addresses(p1, hi);
      var addr := IntIndY(p1, true);
      var v := GetAbs(addr);
      Mod16(ZeroWord(s.mem, p1) + s.r.y, 0);
      ModifyAt(op, v, addr, 2);
    }

    method WriteZero(op: WriteOp, p1: Byte, ghost hi: Byte, ghost s: Cpu)
      requires Visible() == s.(clk := s.clk + 2)
      modifies this
      ensures Visible() == Exec(Write(op, Zero), s, p1, hi)
    {
      hide ReadEffect, ModifyEffect, Shifted, And, U8, U16, Lo, Hi, ZeroWord, LocalStatus;
      Addresses(p1, hi);
      StZero(Source(op), p1);
    }

    method WriteZeroX(op: WriteOp, p1: Byte, ghost hi: Byte, ghost s: Cpu)
      requires Visible() == s.(clk := s.clk + 2)
      modifies this
      ensures Visible() == Exec(Write(op, ZeroX), s, p1, hi)
    {
      hide ReadEffect, ModifyEffect, Shifted, And, U8, U16, Lo, Hi, ZeroWord, LocalStatus;
      Addresses(p1, hi);
      clk := clk + 1;
      StZero(Source(op), p1 + x);
    }

    method WriteZeroY(op: WriteOp, p1: Byte, ghost hi: Byte, ghost s: Cpu)
      requires Visible() == s.(clk := s.clk + 2)
      modifies this
      ensures Visible() == Exec(Write(op, ZeroY), s, p1, hi)
    {
      hide ReadEffect, ModifyEffect, Shifted, And, U8, U16, Lo, Hi, ZeroWord, LocalStatus;
      Addresses(p1, hi);
      clk := clk + 1;
      StZero(Source(op), p1 + y);
    }

    method WriteAbs(op: WriteOp, p1: Byte, p2: Word, ghost hi: Byte, ghost s: Cpu)
      requires p2 == Pair(p1, hi) && Visible() == s.(clk := s.clk + 3)
      modifies this
      ensures Visible() == Exec(Write(op, Absolute), s, p1, hi)
    {
      hide ReadEffect, ModifyEffect, Shifted, And, U8, U16, Lo, Hi, ZeroWord, LocalStatus;
      Addresses(p1, hi);
      St(Source(op), p2, 3);
    }

    method WriteAbsX(op: WriteOp, p1: Byte, p2: Word, ghost hi: Byte, ghost s: Cpu)
      requires p2 == Pair(p1, hi) && Visible() == s.(clk := s.clk + 3)
      modifies this
      ensures Visible() == Exec(Write(op, AbsoluteX), s, p1, hi)
    {
      hide Exec, And, U8, U16, Lo, Hi, ZeroWord, LocalStatus;
      WriteExec(op, AbsoluteX, s, p1, hi);
      Addresses(p1, hi);
      clk := clk + 1;
      St(Source(op), p2 + x, 3);
    }

    method WriteAbsY(op: WriteOp, p1: Byte, p2: Word, ghost hi: Byte, ghost s: Cpu)
      requires p2 == Pair(p1, hi) && Visible() == s.(clk := s.clk + 3)
      modifies this
      ensures Visible() == Exec(Write(op, AbsoluteY), s, p1, hi)
    {
      hide Exec, And, U8, U16, Lo, Hi, ZeroWord, LocalStatus;
      WriteExec(op, AbsoluteY, s, p1, hi);
      Addresses(p1, hi);
      clk := clk + 1;
      St(Source(op), p2 + y, 3);
    }

    method WriteIndX(op: WriteOp, p1: Byte, ghost hi: Byte, ghost s: Cpu)
      requires Visible() == s.(clk := s.clk + 2)
      modifies this
      ensures Visible() == Exec(Write(op, IndirectX), s, p1, hi)
    {
      hide ReadEffect, ModifyEffect, Shifted, And, U8, U16, Lo, Hi, ZeroWord, LocalStatus;
      Addresses(p1, hi);
      var addr := IntIndX(p1);
      St(Source(op), addr, 2);
    }

    method WriteIndY(op: WriteOp, p1: Byte, ghost hi: Byte, ghost s: Cpu)
      requires Visible() == s.(clk := s.clk + 2)
      modifies this
      ensures Visible() == Exec(Write(op, IndirectY), s, p1, hi)
    {
      hide ReadEffect, ModifyEffect, Shifted, And, U8, U16, Lo, Hi, ZeroWord, LocalStatus;
      Addresses(p1, hi);
      var addr := IntIndY(p1, true);
      Mod16(ZeroWord(s.mem, p1) + s.r.y, 0);
      St(Source(op), addr, 2);
    }

    // ---- the switch over the opcode, a row of sixteen at a time; the last opcode of a row is its default ----

    method Execute0(op: Byte, nmi: bool, p1: Byte, p2: Word, ghost hi: Byte, ghost s: Cpu)
      requires op / 16 == 0 && Decode(op) != JAM && p2 == P2(op, p1, hi)
      requires Visible() == s.(clk := s.clk + FetchCycles(op))
      modifies this
      ensures Visible() == Executed(op, nmi, s, p1, hi)
    {
      hide Exec, Decode, Core.Visible;
      Decoded0Low();
      Decoded0High();
      BrkExecuted(nmi, s, p1, hi);
      match op {
        case 0x00 => Brk(nmi, p1, hi, s);
        case 0x01 => ReadIndX(ORA, p1, hi, s);
        case 0x03 => ModifyIndX(SLO, p1, hi, s);
        case 0x04 => ReadZero(NOP, p1, hi, s);
        case 0x05 => ReadZero(ORA, p1, hi, s);
        case 0x06 => ModifyZero(ASL, p1, hi, s);
        case 0x07 => ModifyZero(SLO, p1, hi, s);
        case 0x08 => Implied(PHP, p1, hi, s);
        case 0x09 => ReadImm(ORA, p1, hi, s);
        case 0x0a => AccumulatorOp(ASL, p1, hi, s);
        case 0x0b => ReadImm(ANC, p1, hi, s);
        case 0x0c => ReadAbs(NOP, p1, p2, hi, s);
        case 0x0d => ReadAbs(ORA, p1, p2, hi, s);
        case 0x0e => ModifyAbs(ASL, p1, p2, hi, s);
        case _ => ModifyAbs(SLO, p1, p2, hi, s);
      }
    }

    method Execute1(op: Byte, p1: Byte, p2: Word, ghost hi: Byte, ghost s: Cpu)
      requires op / 16 == 1 && Decode(op) != JAM && p2 == P2(op, p1, hi)
      requires Visible() == s.(clk := s.clk + FetchCycles(op))
      modifies this
      ensures Visible() == Exec(Decode(op), s, p1, hi)
    {
      hide Exec, Decode, Core.Visible;
      Decoded1Low();
      Decoded1High();
      match op {
        case 0x10 => BranchIf(!Bit7(flagN), N, false, p1, hi, s);
        case 0x11 => ReadIndY(ORA, p1, hi, s);
        case 0x13 => ModifyIndY(SLO, p1, hi, s);
        case 0x14 => ReadZeroX(NOP, p1, hi, s);
        case 0x15 => ReadZeroX(ORA, p1, hi, s);
        case 0x16 => ModifyZeroX(ASL, p1, hi, s);
        case 0x17 => ModifyZeroX(SLO, p1, hi, s);
        case 0x18 => Implied(CLC, p1, hi, s);
        case 0x19 => ReadAbsY(ORA, p1, p2, hi, s);
        case 0x1a => Implied(NOPI, p1, hi, s);
        case 0x1b => ModifyAbsY(SLO, p1, p2, hi, s);
        case 0x1c => ReadAbsX(NOP, p1, p2, hi, s);
        case 0x1d => ReadAbsX(ORA, p1, p2, hi, s);
        case 0x1e => ModifyAbsX(ASL, p1, p2, hi, s);
        case _ => ModifyAbsX(SLO, p1, p2, hi, s);
      }
    }

    method Execute2(op: Byte, p1: Byte, p2: Word, ghost hi: Byte, ghost s: Cpu)
      requires op / 16 == 2 && Decode(op) != JAM && p2 == P2(op, p1, hi)
      requires Visible() == s.(clk := s.clk + FetchCycles(op))
      modifies this
      ensures Visible() == Exec(Decode(op), s, p1, hi)
    {
      hide Exec, Decode, Core.Visible;
      Decoded2Low();
      Decoded2High();
      match op {
        case 0x20 => Jsr(p1, hi, s);
        case 0x21 => ReadIndX(AND, p1, hi, s);
        case 0x23 => ModifyIndX(RLA, p1, hi, s);
        case 0x24 => ReadZero(BIT, p1, hi, s);
        case 0x25 => ReadZero(AND, p1, hi, s);
        case 0x26 => ModifyZero(ROL, p1, hi, s);
        case 0x27 => ModifyZero(RLA, p1, hi, s);
        case 0x28 => Implied(PLP, p1, hi, s);
        case 0x29 => ReadImm(AND, p1, hi, s);
        case 0x2a => AccumulatorOp(ROL, p1, hi, s);
        case 0x2b => ReadImm(ANC, p1, hi, s);
        case 0x2c => ReadAbs(BIT, p1, p2, hi, s);
        case 0x2d => ReadAbs(AND, p1, p2, hi, s);
        case 0x2e => ModifyAbs(ROL, p1, p2, hi, s);
        case _ => ModifyAbs(RLA, p1, p2, hi, s);
      }
    }

    method Execute3(op: Byte, p1: Byte, p2: Word, ghost hi: Byte, ghost s: Cpu)
      requires op / 16 == 3 && Decode(op) != JAM && p2 == P2(op, p1, hi)
      requires Visible() == s.(clk := s.clk + FetchCycles(op))
      modifies this
      ensures Visible() == Exec(Decode(op), s, p1, hi)
    {
      hide Exec, Decode, Core.Visible;
      Decoded3Low();
      Decoded3High();
      match op {
        case 0x30 => BranchIf(Bit7(flagN), N, true, p1, hi, s);
        case 0x31 => ReadIndY(AND, p1, hi, s);
        case 0x33 => ModifyIndY(RLA, p1, hi, s);
        case 0x34 => ReadZeroX(NOP, p1, hi, s);
        case 0x35 => ReadZeroX(AND, p1, hi, s);
        case 0x36 => ModifyZeroX(ROL, p1, hi, s);
        case 0x37 => ModifyZeroX(RLA, p1, hi, s);
        case 0x38 => Implied(SEC, p1, hi, s);
        case 0x39 => ReadAbsY(AND, p1, p2, hi, s);
        case 0x3a => Implied(NOPI, p1, hi, s);
        case 0x3b => ModifyAbsY(RLA, p1, p2, hi, s);
        case 0x3c => ReadAbsX(NOP, p1, p2, hi, s);
        case 0x3d => ReadAbsX(AND, p1, p2, hi, s);
        case 0x3e => ModifyAbsX(ROL, p1, p2, hi, s);
        case _ => ModifyAbsX(RLA, p1, p2, hi, s);
      }
    }

    method Execute4(op: Byte, p1: Byte, p2: Word, ghost hi: Byte, ghost s: Cpu)
      requires op / 16 == 4 && Decode(op) != JAM && p2 == P2(op, p1, hi)
      requires Visible() == s.(clk := s.clk + FetchCycles(op))
      modifies this
      ensures Visible() == Exec(Decode(op), s, p1, hi)
    {
      hide Exec, Decode, Core.Visible;
      Decoded4Low();
      Decoded4High();
      match op {
        case 0x40 => Rti(p1, hi, s);
        case 0x41 => ReadIndX(EOR, p1, hi, s);
        case 0x43 => ModifyIndX(SRE, p1, hi, s);
        case 0x44 => ReadZero(NOP, p1, hi, s);
        case 0x45 => ReadZero(EOR, p1, hi, s);
        case 0x46 => ModifyZero(LSR, p1, hi, s);
        case 0x47 => ModifyZero(SRE, p1, hi, s);
        case 0x48 => Implied(PHA, p1, hi, s);
        case 0x49 => ReadImm(EOR, p1, hi, s);
        case 0x4a => AccumulatorOp(LSR, p1, hi, s);
        case 0x4b => ReadImm(ASR, p1, hi, s);
        case 0x4c => Jmp(p1, p2, hi, s);
        case 0x4d => ReadAbs(EOR, p1, p2, hi, s);
        case 0x4e => ModifyAbs(LSR, p1, p2, hi, s);
        case _ => ModifyAbs(SRE, p1, p2, hi, s);
      }
    }

    method Execute5(op: Byte, p1: Byte, p2: Word, ghost hi: Byte, ghost s: Cpu)
      requires op / 16 == 5 && Decode(op) != JAM && p2 == P2(op, p1, hi)
      requires Visible() == s.(clk := s.clk + FetchCycles(op))
      modifies this
      ensures Visible() == Exec(Decode(op), s, p1, hi)
    {
      hide Exec, Decode, Core.Visible;
      Decoded5Low();
      Decoded5High();
      match op {
        case 0x50 => BranchIf(!p.v, V, false, p1, hi, s);
        case 0x51 => ReadIndY(EOR, p1, hi, s);
        case 0x53 => ModifyIndY(SRE, p1, hi, s);
        case 0x54 => ReadZeroX(NOP, p1, hi, s);
        case 0x55 => ReadZeroX(EOR, p1, hi, s);
        case 0x56 => ModifyZeroX(LSR, p1, hi, s);
        case 0x57 => ModifyZeroX(SRE, p1, hi, s);
        case 0x58 => Implied(CLI, p1, hi, s);
        case 0x59 => ReadAbsY(EOR, p1, p2, hi, s);
        case 0x5a => Implied(NOPI, p1, hi, s);
        case 0x5b => ModifyAbsY(SRE, p1, p2, hi, s);
        case 0x5c => ReadAbsX(NOP, p1, p2, hi, s);
        case 0x5d => ReadAbsX(EOR, p1, p2, hi, s);
        case 0x5e => ModifyAbsX(LSR, p1, p2, hi, s);
        case _ => ModifyAbsX(SRE, p1, p2, hi, s);
      }
    }

    method Execute6(op: Byte, p1: Byte, p2: Word, ghost hi: Byte, ghost s: Cpu)
      requires op / 16 == 6 && Decode(op) != JAM && p2 == P2(op, p1, hi)
      requires Visible() == s.(clk := s.clk + FetchCycles(op))
      modifies this
      ensures Visible() == Exec(Decode(op), s, p1, hi)
    {
      hide Exec, Decode, Core.Visible;
      Decoded6Low();
      Decoded6High();
      match op {
        case 0x60 => Rts(p1, hi, s);
        case 0x61 => ReadIndX(ADC, p1, hi, s);
        case 0x63 => ModifyIndX(RRA, p1, hi, s);
        case 0x64 => ReadZero(NOP, p1, hi, s);
        case 0x65 => ReadZero(ADC, p1, hi, s);
        case 0x66 => ModifyZero(ROR, p1, hi, s);
        case 0x67 => ModifyZero(RRA, p1, hi, s);
        case 0x68 => Implied(PLA, p1, hi, s);
        case 0x69 => ReadImm(ADC, p1, hi, s);
        case 0x6a => AccumulatorOp(ROR, p1, hi, s);
        case 0x6b => ReadImm(ARR, p1, hi, s);
        case 0x6c => JmpInd(p1, p2, hi, s);
        case 0x6d => ReadAbs(ADC, p1, p2, hi, s);
        case 0x6e => ModifyAbs(ROR, p1, p2, hi, s);
        case _ => ModifyAbs(RRA, p1, p2, hi, s);
      }
    }

    method Execute7(op: Byte, p1: Byte, p2: Word, ghost hi: Byte, ghost s: Cpu)
      requires op / 16 == 7 && Decode(op) != JAM && p2 == P2(op, p1, hi)
      requires Visible() == s.(clk := s.clk + FetchCycles(op))
      modifies this
      ensures Visible() == Exec(Decode(op), s, p1, hi)
    {
      hide Exec, Decode, Core.Visible;
      Decoded7Low();
      Decoded7High();
      match op {
        case 0x70 => BranchIf(p.v, V, true, p1, hi, s);
        case 0x71 => ReadIndY(ADC, p1, hi, s);
        case 0x73 => ModifyIndY(RRA, p1, hi, s);
        case 0x74 => ReadZeroX(NOP, p1, hi, s);
        case 0x75 => ReadZeroX(ADC, p1, hi, s);
        case 0x76 => ModifyZeroX(ROR, p1, hi, s);
        case 0x77 => ModifyZeroX(RRA, p1, hi, s);
        case 0x78 => Implied(SEI, p1, hi, s);
        case 0x79 => ReadAbsY(ADC, p1, p2, hi, s);
        case 0x7a => Implied(NOPI, p1, hi, s);
        case 0x7b => ModifyAbsY(RRA, p1, p2, hi, s);
        case 0x7c => ReadAbsX(NOP, p1, p2, hi, s);
        case 0x7d => ReadAbsX(ADC, p1, p2, hi, s);
        case 0x7e => ModifyAbsX(ROR, p1, p2, hi, s);
        case _ => ModifyAbsX(RRA, p1, p2, hi, s);
      }
    }

    method Execute8(op: Byte, p1: Byte, p2: Word, ghost hi: Byte, ghost s: Cpu)
      requires op / 16 == 8 && Decode(op) != JAM && p2 == P2(op, p1, hi)
      requires Visible() == s.(clk := s.clk + FetchCycles(op))
      modifies this
      ensures Visible() == Exec(Decode(op), s, p1, hi)
    {
      hide Exec, Decode, Core.Visible;
      Decoded8Low();
      Decoded8High();
      match op {
        case 0x80 | 0x82 | 0x89 => ReadImm(NOP, p1, hi, s);
        case 0x81 => WriteIndX(STA, p1, hi, s);
        case 0x83 => WriteIndX(SAX, p1, hi, s);
        case 0x84 => WriteZero(STY, p1, hi, s);
        case 0x85 => WriteZero(STA, p1, hi, s);
        case 0x86 => WriteZero(STX, p1, hi, s);
        case 0x87 => WriteZero(SAX, p1, hi, s);
        case 0x88 => Implied(DEY, p1, hi, s);
        case 0x8a => Implied(TXA, p1, hi, s);
        case 0x8b => ReadImm(ANE, p1, hi, s);
        case 0x8c => WriteAbs(STY, p1, p2, hi, s);
        case 0x8d => WriteAbs(STA, p1, p2, hi, s);
        case 0x8e => WriteAbs(STX, p1, p2, hi, s);
        case _ => WriteAbs(SAX, p1, p2, hi, s);
      }
    }

    method Execute9(op: Byte, p1: Byte, p2: Word, ghost hi: Byte, ghost s: Cpu)
      requires op / 16 == 9 && Decode(op) != JAM && p2 == P2(op, p1, hi)
      requires Visible() == s.(clk := s.clk + FetchCycles(op))
      modifies this
      ensures Visible() == Exec(Decode(op), s, p1, hi)
    {
      hide Exec, Decode, Core.Visible;
      Decoded9Low();
      Decoded9High();
      match op {
        case 0x90 => BranchIf(!p.c, C, false, p1, hi, s);
        case 0x91 => WriteIndY(STA, p1, hi, s);
        case 0x93 => ShaIndY(p1, false, hi, s);
        case 0x94 => WriteZeroX(STY, p1, hi, s);
        case 0x95 => WriteZeroX(STA, p1, hi, s);
        case 0x96 => WriteZeroY(STX, p1, hi, s);
        case 0x97 => WriteZeroY(SAX, p1, hi, s);
        case 0x98 => Implied(TYA, p1, hi, s);
        case 0x99 => WriteAbsY(STA, p1, p2, hi, s);
        case 0x9a => Implied(TXS, p1, hi, s);
        case 0x9b => ShAbs(SHS, p1, p2, false, hi, s);
        case 0x9c => ShAbs(SHY, p1, p2, false, hi, s);
        case 0x9d => WriteAbsX(STA, p1, p2, hi, s);
        case 0x9e => ShAbs(SHX, p1, p2, false, hi, s);
        case _ => ShAbs(SHA, p1, p2, false, hi, s);
      }
    }

    method ExecuteA(op: Byte, p1: Byte, p2: Word, ghost hi: Byte, ghost s: Cpu)
      requires op / 16 == 10 && Decode(op) != JAM && p2 == P2(op, p1, hi)
      requires Visible() == s.(clk := s.clk + FetchCycles(op))
      modifies this
      ensures Visible() == Exec(Decode(op), s, p1, hi)
    {
      hide Exec, Decode, Core.Visible;
      DecodedALow();
      DecodedAHigh();
      match op {
        case 0xa0 => ReadImm(LDY, p1, hi, s);
        case 0xa1 => ReadIndX(LDA, p1, hi, s);
        case 0xa2 => ReadImm(LDX, p1, hi, s);
        case 0xa3 => ReadIndX(LAX, p1, hi, s);
        case 0xa4 => ReadZero(LDY, p1, hi, s);
        case 0xa5 => ReadZero(LDA, p1, hi, s);
        case 0xa6 => ReadZero(LDX, p1, hi, s);
        case 0xa7 => ReadZero(LAX, p1, hi, s);
        case 0xa8 => Implied(TAY, p1, hi, s);
        case 0xa9 => ReadImm(LDA, p1, hi, s);
        case 0xaa => Implied(TAX, p1, hi, s);
        case 0xab => ReadImm(LXA, p1, hi, s);
        case 0xac => ReadAbs(LDY, p1, p2, hi, s);
        case 0xad => ReadAbs(LDA, p1, p2, hi, s);
        case 0xae => ReadAbs(LDX, p1, p2, hi, s);
        case _ => ReadAbs(LAX, p1, p2, hi, s);
      }
    }

    method ExecuteB(op: Byte, p1: Byte, p2: Word, ghost hi: Byte, ghost s: Cpu)
      requires op / 16 == 11 && Decode(op) != JAM && p2 == P2(op, p1, hi)
      requires Visible() == s.(clk := s.clk + FetchCycles(op))
      modifies this
      ensures Visible() == Exec(Decode(op), s, p1, hi)
    {
      hide Exec, Decode, Core.Visible;
      DecodedBLow();
      DecodedBHigh();
      match op {
        case 0xb0 => BranchIf(p.c, C, true, p1, hi, s);
        case 0xb1 => ReadIndY(LDA, p1, hi, s);
        case 0xb3 => ReadIndY(LAX, p1, hi, s);
        case 0xb4 => ReadZeroX(LDY, p1, hi, s);
        case 0xb5 => ReadZeroX(LDA, p1, hi, s);
        case 0xb6 => ReadZeroY(LDX, p1, hi, s);
        case 0xb7 => ReadZeroY(LAX, p1, hi, s);
        case 0xb8 => Implied(CLV, p1, hi, s);
        case 0xb9 => ReadAbsY(LDA, p1, p2, hi, s);
        case 0xba => Implied(TSX, p1, hi, s);
        case 0xbb => ReadAbsY(LAS, p1, p2, hi, s);
        case 0xbc => ReadAbsX(LDY, p1, p2, hi, s);
        case 0xbd => ReadAbsX(LDA, p1, p2, hi, s);
        case 0xbe => ReadAbsY(LDX, p1, p2, hi, s);
        case _ => ReadAbsY(LAX, p1, p2, hi, s);
      }
    }

    method ExecuteC(op: Byte, p1: Byte, p2: Word, ghost hi: Byte, ghost s: Cpu)
      requires op / 16 == 12 && Decode(op) != JAM && p2 == P2(op, p1, hi)
      requires Visible() == s.(clk := s.clk + FetchCycles(op))
      modifies this
      ensures Visible() == Exec(Decode(op), s, p1, hi)
    {
      hide Exec, Decode, Core.Visible;
      DecodedCLow();
      DecodedCHigh();
      match op {
        case 0xc0 => ReadImm(CPY, p1, hi, s);
        case 0xc1 => ReadIndX(CMP, p1, hi, s);
        case 0xc2 => ReadImm(NOP, p1, hi, s);
        case 0xc3 => ModifyIndX(DCP, p1, hi, s);
        case 0xc4 => ReadZero(CPY, p1, hi, s);
        case 0xc5 => ReadZero(CMP, p1, hi, s);
        case 0xc6 => ModifyZero(DEC, p1, hi, s);
        case 0xc7 => ModifyZero(DCP, p1, hi, s);
        case 0xc8 => Implied(INY, p1, hi, s);
        case 0xc9 => ReadImm(CMP, p1, hi, s);
        case 0xca => Implied(DEX, p1, hi, s);
        case 0xcb => ReadImm(SBX, p1, hi, s);
        case 0xcc => ReadAbs(CPY, p1, p2, hi, s);
        case 0xcd => ReadAbs(CMP, p1, p2, hi, s);
        case 0xce => ModifyAbs(DEC, p1, p2, hi, s);
        case _ => ModifyAbs(DCP, p1, p2, hi, s);
      }
    }

    method ExecuteD(op: Byte, p1: Byte, p2: Word, ghost hi: Byte, ghost s: Cpu)
      requires op / 16 == 13 && Decode(op) != JAM && p2 == P2(op, p1, hi)
      requires Visible() == s.(clk := s.clk + FetchCycles(op))
      modifies this
      ensures Visible() == Exec(Decode(op), s, p1, hi)
    {
      hide Exec, Decode, Core.Visible;
      DecodedDLow();
      DecodedDHigh();
      match op {
        case 0xd0 => BranchIf(flagZ != 0, Z, false, p1, hi, s);
        case 0xd1 => ReadIndY(CMP, p1, hi, s);
        case 0xd3 => ModifyIndY(DCP, p1, hi, s);
        case 0xd4 => ReadZeroX(NOP, p1, hi, s);
        case 0xd5 => ReadZeroX(CMP, p1, hi, s);
        case 0xd6 => ModifyZeroX(DEC, p1, hi, s);
        case 0xd7 => ModifyZeroX(DCP, p1, hi, s);
        case 0xd8 => Implied(CLD, p1, hi, s);
        case 0xd9 => ReadAbsY(CMP, p1, p2, hi, s);
        case 0xda => Implied(NOPI, p1, hi, s);
        case 0xdb => ModifyAbsY(DCP, p1, p2, hi, s);
        case 0xdc => ReadAbsX(NOP, p1, p2, hi, s);
        case 0xdd => ReadAbsX(CMP, p1, p2, hi, s);
        case 0xde => ModifyAbsX(DEC, p1, p2, hi, s);
        case _ => ModifyAbsX(DCP, p1, p2, hi, s);
      }
    }

    method ExecuteE(op: Byte, p1: Byte, p2: Word, ghost hi: Byte, ghost s: Cpu)
      requires op / 16 == 14 && Decode(op) != JAM && p2 == P2(op, p1, hi)
      requires Visible() == s.(clk := s.clk + FetchCycles(op))
      modifies this
      ensures Visible() == Exec(Decode(op), s, p1, hi)
    {
      hide Exec, Decode, Core.Visible;
      DecodedELow();
      DecodedEHigh();
      match op {
        case 0xe0 => ReadImm(CPX, p1, hi, s);
        case 0xe1 => ReadIndX(SBC, p1, hi, s);
        case 0xe2 => ReadImm(NOP, p1, hi, s);
        case 0xe3 => ModifyIndX(ISB, p1, hi, s);
        case 0xe4 => ReadZero(CPX, p1, hi, s);
        case 0xe5 => ReadZero(SBC, p1, hi, s);
        case 0xe6 => ModifyZero(INC, p1, hi, s);
        case 0xe7 => ModifyZero(ISB, p1, hi, s);
        case 0xe8 => Implied(INX, p1, hi, s);
        case 0xe9 | 0xeb => ReadImm(SBC, p1, hi, s);
        case 0xea => Implied(NOPI, p1, hi, s);
        case 0xec => ReadAbs(CPX, p1, p2, hi, s);
        case 0xed => ReadAbs(SBC, p1, p2, hi, s);
        case 0xee => ModifyAbs(INC, p1, p2, hi, s);
        case _ => ModifyAbs(ISB, p1, p2, hi, s);
      }
    }

    method ExecuteF(op: Byte, p1: Byte, p2: Word, ghost hi: Byte, ghost s: Cpu)
      requires op / 16 == 15 && Decode(op) != JAM && p2 == P2(op, p1, hi)
      requires Visible() == s.(clk := s.clk + FetchCycles(op))
      modifies this
      ensures Visible() == Exec(Decode(op), s, p1, hi)
    {
      hide Exec, Decode, Core.Visible;
      DecodedFLow();
      DecodedFHigh();
      match op {
        case 0xf0 => BranchIf(flagZ == 0, Z, true, p1, hi, s);
        case 0xf1 => ReadIndY(SBC, p1, hi, s);
        case 0xf3 => ModifyIndY(ISB, p1, hi, s);
        case 0xf4 => ReadZeroX(NOP, p1, hi, s);
        case 0xf5 => ReadZeroX(SBC, p1, hi, s);
        case 0xf6 => ModifyZeroX(INC, p1, hi, s);
        case 0xf7 => ModifyZeroX(ISB, p1, hi, s);
        case 0xf8 => Implied(SED, p1, hi, s);
        case 0xf9 => ReadAbsY(SBC, p1, p2, hi, s);
        case 0xfa => Implied(NOPI, p1, hi, s);
        case 0xfb => ModifyAbsY(ISB, p1, p2, hi, s);
        case 0xfc => ReadAbsX(NOP, p1, p2, hi, s);
        case 0xfd => ReadAbsX(SBC, p1, p2, hi, s);
        case 0xfe => ModifyAbsX(INC, p1, p2, hi, s);
        case _ => ModifyAbsX(ISB, p1, p2, hi, s);
      }
    }

    /** FETCH_OPCODE: two bytes, and a third one for the opcodes of the fetch table. */
    method FetchOpcode() returns (op: Byte, p1: Byte, p2: Word, ghost hi: Byte)
      modifies `clk
      ensures op == Peek(mem, U16(pc)) && p1 == Peek(mem, U16(pc + 1)) && hi == Peek(mem, U16(pc + 2))
      ensures p2 == P2(op, p1, hi) && clk == old(clk) + FetchCycles(op)
    {
      hide U16, FetchTab;
      op := Load(pc);
      clk := clk + 1;
      p1 := Load(pc + 1);
      p2 := p1;
      clk := clk + 1;
      hi := Load(pc + 2);
      if FetchTab(op) {
        p2 := p1 + 0x100 * Load(pc + 2);
        clk := clk + 1;
      }
    }

    /** The switch. */
    method Execute(op: Byte, nmi: bool, p1: Byte, p2: Word, ghost hi: Byte, ghost s: Cpu)
      requires Decode(op) != JAM && p2 == P2(op, p1, hi)
      requires Visible() == s.(clk := s.clk + FetchCycles(op))
      modifies this
      ensures Visible() == Executed(op, nmi, s, p1, hi)
    {
      hide Exec, Decode, Core.Visible, P2, FetchCycles;
      match op / 16 {
        case 0 => Execute0(op, nmi, p1, p2, hi, s);
        case 1 => Execute1(op, p1, p2, hi, s);
        case 2 => Execute2(op, p1, p2, hi, s);
        case 3 => Execute3(op, p1, p2, hi, s);
        case 4 => Execute4(op, p1, p2, hi, s);
        case 5 => Execute5(op, p1, p2, hi, s);
        case 6 => Execute6(op, p1, p2, hi, s);
        case 7 => Execute7(op, p1, p2, hi, s);
        case 8 => Execute8(op, p1, p2, hi, s);
        case 9 => Execute9(op, p1, p2, hi, s);
        case 10 => ExecuteA(op, p1, p2, hi, s);
        case 11 => ExecuteB(op, p1, p2, hi, s);
        case 12 => ExecuteC(op, p1, p2, hi, s);
        case 13 => ExecuteD(op, p1, p2, hi, s);
        case 14 => ExecuteE(op, p1, p2, hi, s);
        case _ => ExecuteF(op, p1, p2, hi, s);
      }
    }

    /** One pass through the main loop when no interrupt is pending. */
    method Step(nmi: bool)
      requires !IsJam(Opcode(Visible()))
      modifies this
      ensures Visible() == Isa6510.Step(old(Visible()), nmi)
    {
      hide Executed, Decode, P2, FetchTab, U16, Core.Registers;
      ghost var s := Visible();
      Mod16(pc, 1);
      Mod16(pc, 2);
      var op, p1, p2, hi := FetchOpcode();
      JamDecoded(op);
      Execute(op, nmi, p1, p2, hi, s);
    }

    /** The main loop: instructions, and interrupts that are taken at their boundaries, until a JAM opcode. */
    method Run(events: seq<Event>)
      modifies this
      ensures Visible() == Isa6510.Run(old(Visible()), events)
    {
      hide Isa6510.Step, Decode, Trap, Core.Registers;
      ghost var s := Visible();
      var i := 0;
      while i < |events|
        invariant 0 <= i <= |events|
        invariant Isa6510.Run(s, events) == Isa6510.Run(Visible(), events[i..])
      {
        assert events[i..][1..] == events[i + 1..];
        match events[i] {
          case Instruction(nmi) =>
            if IsJam(Load(pc)) {
              return;
            }
            Step(nmi);
          case Irq(sei, nmi) => DoInterrupt(false, true, sei, nmi);
          case Nmi => DoInterrupt(true, false, false, false);
        }
        i := i + 1;
      }
    }
  }
}
