/** vice/src/6510core.c: the core that adds an instruction's cycles in lumps.
    Every method is one macro of the source, or a family of macros of the same shape; its body follows the source
    step by step, its contract speaks in terms of the instruction set reference.  Reads of plain RAM have no side
    effects, so the dummy reads are left out; the writes and the clock are all there. */
module LumpedCore {
  import opened Bits
  import opened Isa6510
  import opened Macros6510
  import opened OpcodeMatrix

  const CLK_RTS := 3
  const CLK_RTI := 4
  const CLK_BRK := 5
  const CLK_ABS_I_STORE2 := 2
  const CLK_STACK_PUSH := 1
  const CLK_STACK_PULL := 2
  const CLK_ABS_RMW2 := 3
  const CLK_ABS_I_RMW2 := 3
  const CLK_ZERO_I_STORE := 2
  const CLK_ZERO_I2 := 2
  const CLK_ZERO_RMW := 3
  const CLK_ZERO_I_RMW := 4
  const CLK_IND_X_RMW := 3
  const CLK_IND_Y_RMW1 := 1
  const CLK_IND_Y_RMW2 := 3
  const CLK_BRANCH2 := 1
  const CLK_INT_CYCLE := 1
  const CLK_JSR_INT_CYCLE := 1
  const CLK_IND_Y_W := 2
  const CLK_NOOP_ZERO_X := 2

  datatype LoadFunc = LOAD_ABS | LOAD_ZERO | LOAD_ABS_X_RMW | LOAD_ABS_Y_RMW
  datatype StoreFunc = STORE_ABS | STORE_ABS_X | STORE_ABS_Y | STORE_ABS_X_RMW | STORE_ABS_Y_RMW

  class Core {
    var pc: int
    var a: Byte
    var x: Byte
    var y: Byte
    var sp: Byte
    var p: RegP
    var flagN: Byte
    var flagZ: Byte
    var clk: int
    var mem: Memory

    /** What the operand bytes address in the zero page and beyond it. */
    lemma Addresses(p1: Byte, hi: Byte)
      ensures U8(p1) == p1 == U16(p1)
      ensures U8(U8(p1 + x)) == U8(p1 + x) == U16(U8(p1 + x)) && U8(U8(p1 + y)) == U8(p1 + y) == U16(U8(p1 + y))
      ensures U16(Pair(p1, hi)) == Pair(p1, hi) && Lo(Pair(p1, hi)) == p1 && Hi(Pair(p1, hi)) == hi
      ensures U16(ZeroWord(mem, p1 + x)) == ZeroWord(mem, p1 + x)
    {
    }

    static lemma NextInPage(lo: Byte, hi: Byte)
      ensures InPage(Pair(lo, hi), Pair(lo, hi) + 1) == Pair(U8(lo + 1), hi)
    {
    }

    lemma NoopEffect()
      ensures forall v: Byte :: ReadEffect(NOP, Registers(), v) == Registers()
      ensures TransferEffect(NOPI, Registers()) == Registers()
    {
    }

    ghost function Registers(): Regs
      reads `a, `x, `y, `sp, `p, `flagN, `flagZ
    {
      Regs(a, x, y, sp, LocalStatus(p, flagN, flagZ))
    }

    ghost function Visible(): Cpu
      reads this
    {
      Cpu(U16(pc), Registers(), mem, clk)
    }

    constructor (pc: int, mem: Memory, clk: int)
      ensures Visible() == Cpu(U16(pc), Regs(0, 0, 0, 0, Status(false, false, false, false, false, true, false)), mem, clk)
    {
      this.pc, this.mem, this.clk := pc, mem, clk;
      a, x, y, sp, flagN, flagZ := 0, 0, 0, 0, 0, 0;
      p := RegP(false, false, false, false, false);
    }

    // ---- memory and stack ----

    function Load(addr: int): Byte
      reads `mem
    {
      LoadFrom(mem, addr)
    }

    function LoadZero(addr: int): Byte
      reads `mem
    {
      Peek(mem, U8(addr))
    }

    function LoadZeroAddr(addr: int): (w: Word)
      reads `mem
      ensures w == ZeroWord(mem, addr)
    {
      Pair(LoadZero(addr), LoadZero(addr + 1))
    }

    function LoadAddr(addr: int): (w: Word)
      reads `mem
      ensures w == AbsWord(mem, addr)
    {
      Pair(Load(addr), Load(addr + 1))
    }

    method PushByte(val: Byte)
      modifies `mem, `sp
      ensures mem == old(mem)[0x100 + old(sp) := val] && sp == U8(old(sp) - 1)
    {
      mem := StoreTo(mem, 0x100 + sp, val);
      sp := U8(sp - 1);
    }

    method PullByte() returns (v: Byte)
      modifies `sp
      ensures sp == U8(old(sp) + 1) && v == Peek(mem, 0x100 + sp)
    {
      sp := U8(sp + 1);
      v := Load(0x100 + sp);
    }

    // ---- addressing modes ----

    /** LOAD_ABS_X and LOAD_ABS_Y. */
    method LoadAbsI(addr: Word, index: Byte) returns (v: Byte)
      modifies `clk
      ensures v == Peek(mem, U16(addr + index)) && clk == old(clk) + Num(Lo(addr) + index > 0xff)
    {
      if Lo(addr) + index > 0xff {
        clk := clk + CLK_INT_CYCLE;
      }
      v := Load(addr + index);
    }

    method LoadIndX(addr: Byte) returns (v: Byte)
      modifies `clk
      ensures v == Peek(mem, ZeroWord(mem, addr + x)) && clk == old(clk) + 3
    {
      clk := clk + 3;
      v := Load(LoadZeroAddr(addr + x));
    }

    method LoadIndY(addr: Byte) returns (v: Byte)
      modifies `clk
      ensures v == Peek(mem, U16(ZeroWord(mem, addr) + y)) && clk == old(clk) + 2 + Num(Lo(ZeroWord(mem, addr)) + y > 0xff)
    {
      clk := clk + 2;
      if Lo(LoadZeroAddr(addr)) + y > 0xff {
        clk := clk + CLK_INT_CYCLE;
      }
      v := Load(LoadZeroAddr(addr) + y);
    }

    /** The load_func argument of the read-modify-write macros. */
    method LoadBy(lf: LoadFunc, addr: Word) returns (v: Byte)
      modifies `clk
      ensures v == Peek(mem, U16(LoadAddress(lf, addr)))
      ensures clk == old(clk) + Num(lf == LOAD_ABS_X_RMW || lf == LOAD_ABS_Y_RMW)
    {
      match lf {
        case LOAD_ABS => v := Load(addr);
        case LOAD_ZERO => v := LoadZero(addr);
        case LOAD_ABS_X_RMW =>
          clk := clk + CLK_INT_CYCLE;
          v := Load(addr + x);
        case LOAD_ABS_Y_RMW =>
          clk := clk + CLK_INT_CYCLE;
          v := Load(addr + y);
      }
    }

    ghost function LoadAddress(lf: LoadFunc, addr: Word): int
      reads `x, `y
    {
      match lf
      case LOAD_ABS => addr
      case LOAD_ZERO => U8(addr)
      case LOAD_ABS_X_RMW => addr + x
      case LOAD_ABS_Y_RMW => addr + y
    }

    method StoreBy(sf: StoreFunc, addr: Word, value: int, inc: int)
      modifies `clk, `mem
      ensures clk == old(clk) + inc && mem == old(mem)[U16(StoreAddress(sf, addr)) := U8(value)]
    {
      match sf {
        case STORE_ABS =>
          clk := clk + inc;
          mem := StoreTo(mem, addr, value);
        case STORE_ABS_X =>
          clk := clk + (inc - 2);
          clk := clk + 2;
          mem := StoreTo(mem, addr + x, value);
        case STORE_ABS_Y =>
          clk := clk + (inc - 2);
          clk := clk + 2;
          mem := StoreTo(mem, addr + y, value);
        case STORE_ABS_X_RMW =>
          clk := clk + inc;
          mem := StoreTo(mem, addr + x, value);
        case STORE_ABS_Y_RMW =>
          clk := clk + inc;
          mem := StoreTo(mem, addr + y, value);
      }
    }

    ghost function StoreAddress(sf: StoreFunc, addr: Word): int
      reads `x, `y
    {
      match sf
      case STORE_ABS => addr
      case STORE_ABS_X => addr + x
      case STORE_ABS_Y => addr + y
      case STORE_ABS_X_RMW => addr + x
      case STORE_ABS_Y_RMW => addr + y
    }

    /** STORE_ABS_SH_X and STORE_ABS_SH_Y. */
    method StoreAbsSh(addr: Word, index: Byte, value: Byte, inc: int)
      modifies `clk, `mem
      ensures clk == old(clk) + inc
      ensures var at := if Lo(addr) + index > 0xff then Pair(Lo(addr + index), value) else U16(addr + index);
              mem == old(mem)[at := value]
    {
      hide U16, Lo;
      Mod16Word(Pair(Lo(addr + index), value));
      Mod8Byte(value);
      clk := clk + (inc - 2);
      clk := clk + 2;
      var tmp2: int := addr + index;
      if Lo(addr) + index > 0xff {
        tmp2 := Pair(Lo(tmp2), value);
      }
      mem := StoreTo(mem, tmp2, value);
    }

    /** CLK_ADD and INC_PC. */
    method Tick(clkInc: int, pcInc: int)
      modifies `clk, `pc
      ensures Visible() == Advance(old(Visible()), pcInc, clkInc)
    {
      hide Core.Registers;
      clk := clk + clkInc;
      pc := pc + pcInc;
    }

    method LocalSetNZ(val: int)
      modifies `flagN, `flagZ
      ensures flagN == flagZ == U8(val)
    {
      flagZ := U8(val);
      flagN := flagZ;
    }

    // ---- operations on a loaded value ----

    method Adc(value: Byte)
      modifies `a, `p, `flagN, `flagZ
      ensures Registers() == ReadEffect(ADC, old(Registers()), value)
    {
      hide Add;
      a, flagN, flagZ, p := AdcMacro(a, value, p, Registers().st);
    }

    method Sbc(value: Byte)
      modifies `a, `p, `flagN, `flagZ
      ensures Registers() == ReadEffect(SBC, old(Registers()), value)
    {
      hide Subtract;
      a, flagN, flagZ, p := SbcMacro(a, value, p, Registers().st);
    }

    method Cpy(value: Byte)
      modifies `p, `flagN, `flagZ
      ensures Registers() == ReadEffect(CPY, old(Registers()), value)
    {
      var tmp := U32(y - value);
      Wrapped(y - value);
      p := p.(c := tmp < 0x100);
      LocalSetNZ(tmp);
    }

    method Cpx(value: Byte)
      modifies `p, `flagN, `flagZ
      ensures Registers() == ReadEffect(CPX, old(Registers()), value)
    {
      var tmp := U32(x - value);
      Wrapped(x - value);
      p := p.(c := tmp < 0x100);
      LocalSetNZ(tmp);
    }

    method Cmp(value: Byte)
      modifies `p, `flagN, `flagZ
      ensures Registers() == ReadEffect(CMP, old(Registers()), value)
    {
      var tmp := U32(a - value);
      Wrapped(a - value);
      p := p.(c := tmp < 0x100);
      LocalSetNZ(tmp);
    }

    method Ora(value: Byte)
      modifies `a, `flagN, `flagZ
      ensures Registers() == ReadEffect(ORA, old(Registers()), value)
    {
      hide Or;
      a := Or(a, value);
      LocalSetNZ(a);
    }

    method AndA(value: Byte)
      modifies `a, `flagN, `flagZ
      ensures Registers() == ReadEffect(AND, old(Registers()), value)
    {
      hide And;
      a := And(a, value);
      LocalSetNZ(a);
    }

    method Eor(value: Byte)
      modifies `a, `flagN, `flagZ
      ensures Registers() == ReadEffect(EOR, old(Registers()), value)
    {
      hide Xor;
      a := Xor(a, value);
      LocalSetNZ(a);
    }

    method Lda(value: Byte)
      modifies `a, `flagN, `flagZ
      ensures Registers() == ReadEffect(LDA, old(Registers()), value)
    {
      a := value;
      LocalSetNZ(a);
    }

    method Ldx(value: Byte)
      modifies `x, `flagN, `flagZ
      ensures Registers() == ReadEffect(LDX, old(Registers()), value)
    {
      x := value;
      LocalSetNZ(x);
    }

    method Ldy(value: Byte)
      modifies `y, `flagN, `flagZ
      ensures Registers() == ReadEffect(LDY, old(Registers()), value)
    {
      y := value;
      LocalSetNZ(y);
    }

    method Lax(value: Byte)
      modifies `a, `x, `flagN, `flagZ
      ensures Registers() == ReadEffect(LAX, old(Registers()), value)
    {
      x := value;
      a := value;
      LocalSetNZ(value);
    }

    method Las(value: Byte)
      modifies `a, `x, `sp, `flagN, `flagZ
      ensures Registers() == ReadEffect(LAS, old(Registers()), value)
    {
      hide And;
      sp := And(sp, value);
      x := sp;
      a := sp;
      LocalSetNZ(sp);
    }

    method Anc(value: Byte)
      modifies `a, `p, `flagN, `flagZ
      ensures Registers() == ReadEffect(ANC, old(Registers()), value)
    {
      hide And;
      a := And(a, value);
      LocalSetNZ(a);
      p := p.(c := Bit7(flagN));
    }

    method Asr(value: Byte)
      modifies `a, `p, `flagN, `flagZ
      ensures Registers() == ReadEffect(ASR, old(Registers()), value)
    {
      hide And;
      var tmp := And(a, value);
      p := p.(c := Bit0(tmp));
      tmp := tmp / 2;
      a := tmp;
      LocalSetNZ(tmp);
    }

    method Arr(value: Byte)
      modifies `a, `p, `flagN, `flagZ
      ensures Registers() == ReadEffect(ARR, old(Registers()), value)
    {
      hide And, RotateAnded;
      a, flagN, flagZ, p := ArrMacro(And(a, value), p, Registers().st);
    }

    method Ane(value: Byte)
      modifies `a, `flagN, `flagZ
      ensures Registers() == ReadEffect(ANE, old(Registers()), value)
    {
      hide And;
      a := And(x, value);
      LocalSetNZ(a);
    }

    method Lxa(value: Byte)
      modifies `a, `x, `flagN, `flagZ
      ensures Registers() == ReadEffect(LXA, old(Registers()), value)
    {
      hide And, Or;
      var tmp := And(Or(a, 0xee), value);
      x := tmp;
      a := tmp;
      LocalSetNZ(tmp);
    }

    method BitTest(value: Byte)
      modifies `p, `flagN, `flagZ
      ensures Registers() == ReadEffect(BIT, old(Registers()), value)
    {
      hide And;
      flagN := if Bit7(value) then 0x80 else 0;
      p := p.(v := Bit6(value));
      flagZ := if And(value, a) != 0 then 1 else 0;
    }

    method Sbx(value: Byte)
      modifies `x, `p, `flagN, `flagZ
      ensures Registers() == ReadEffect(SBX, old(Registers()), value)
    {
      hide And;
      var tmp := U32(And(a, x) - value);
      Wrapped(And(a, x) - value);
      p := p.(c := tmp < 0x100);
      x := U8(tmp);
      LocalSetNZ(x);
    }

    /** An operation on a loaded byte: the value macros, each with its clk_inc and pc_inc. */
    method Alu(op: ReadOp, value: Byte, clkInc: int, pcInc: int)
      modifies this
      ensures Visible() == Advance(old(Visible()).(r := ReadEffect(op, old(Registers()), value)), pcInc, clkInc)
    {
      hide ReadEffect, Advance, Core.Registers;
      match op {
        case ADC => Adc(value);
        case SBC => Sbc(value);
        case CPY => Cpy(value);
        case CPX => Cpx(value);
        case CMP => Cmp(value);
        case ORA => Ora(value);
        case AND => AndA(value);
        case EOR => Eor(value);
        case LDA => Lda(value);
        case LDX => Ldx(value);
        case LDY => Ldy(value);
        case LAX => Lax(value);
        case LAS => Las(value);
        case ANC => Anc(value);
        case ASR => Asr(value);
        case ARR => Arr(value);
        case ANE => Ane(value);
        case LXA => Lxa(value);
        case BIT => BitTest(value);
        case SBX => Sbx(value);
        case NOP => NoopEffect();
      }
      Tick(clkInc, pcInc);
    }

    // ---- read-modify-write operations: what happens between the load and the store ----

    method Asl(v: Byte) returns (tmp: int)
      modifies `p, `flagN, `flagZ
      ensures Registers() == ModifyEffect(ASL, old(Registers()), v) && U8(tmp) == Shifted(ASL, v, old(Registers()).st.c)
    {
      p := p.(c := Bit7(v));
      tmp := U8(2 * v);
      LocalSetNZ(tmp);
    }

    method Rol(v: Byte) returns (tmp: int)
      modifies `p, `flagN, `flagZ
      ensures Registers() == ModifyEffect(ROL, old(Registers()), v) && U8(tmp) == Shifted(ROL, v, old(Registers()).st.c)
    {
      hide Bit7, Bit8, U8;
      tmp := 2 * v + Num(p.c);
      CarryOut(v, p.c);
      p := p.(c := Bit8(tmp));
      LocalSetNZ(tmp);
    }

    method Lsr(v: Byte) returns (tmp: int)
      modifies `p, `flagN, `flagZ
      ensures Registers() == ModifyEffect(LSR, old(Registers()), v) && U8(tmp) == Shifted(LSR, v, old(Registers()).st.c)
    {
      p := p.(c := Bit0(v));
      tmp := v / 2;
      LocalSetNZ(tmp);
    }

    method Ror(v: Byte) returns (tmp: int)
      modifies `p, `flagN, `flagZ
      ensures Registers() == ModifyEffect(ROR, old(Registers()), v) && U8(tmp) == Shifted(ROR, v, old(Registers()).st.c)
    {
      var src: int := v;
      if p.c {
        src := src + 0x100;
      }
      p := p.(c := Bit0(src));
      tmp := src / 2;
      LocalSetNZ(tmp);
    }

    method Dec(v: Byte) returns (tmp: int)
      modifies `p, `flagN, `flagZ
      ensures Registers() == ModifyEffect(DEC, old(Registers()), v) && U8(tmp) == Shifted(DEC, v, old(Registers()).st.c)
    {
      tmp := U8(v - 1);
      LocalSetNZ(tmp);
    }

    method Inc(v: Byte) returns (tmp: int)
      modifies `p, `flagN, `flagZ
      ensures Registers() == ModifyEffect(INC, old(Registers()), v) && U8(tmp) == Shifted(INC, v, old(Registers()).st.c)
    {
      tmp := U8(v + 1);
      LocalSetNZ(tmp);
    }

    method Slo(v: Byte) returns (tmp: int)
      modifies `a, `p, `flagN, `flagZ
      ensures Registers() == ModifyEffect(SLO, old(Registers()), v) && U8(tmp) == Shifted(SLO, v, old(Registers()).st.c)
    {
      hide Or;
      p := p.(c := Bit7(v));
      tmp := U8(2 * v);
      a := Or(a, tmp);
      LocalSetNZ(a);
    }

    method Rla(v: Byte) returns (tmp: int)
      modifies `a, `p, `flagN, `flagZ
      ensures Registers() == ModifyEffect(RLA, old(Registers()), v) && U8(tmp) == Shifted(RLA, v, old(Registers()).st.c)
    {
      hide And, Bit7, Bit8, U8;
      tmp := 2 * v + Num(p.c);
      CarryOut(v, p.c);
      p := p.(c := Bit8(tmp));
      a := And(a, U8(tmp));
      Mod8Byte(a);
      LocalSetNZ(a);
    }

    method Sre(v: Byte) returns (tmp: int)
      modifies `a, `p, `flagN, `flagZ
      ensures Registers() == ModifyEffect(SRE, old(Registers()), v) && U8(tmp) == Shifted(SRE, v, old(Registers()).st.c)
    {
      hide Xor;
      p := p.(c := Bit0(v));
      tmp := v / 2;
      a := Xor(a, tmp);
      LocalSetNZ(a);
    }

    method Rra(v: Byte) returns (tmp: int)
      modifies `a, `p, `flagN, `flagZ
      ensures Registers() == ModifyEffect(RRA, old(Registers()), v) && U8(tmp) == Shifted(RRA, v, old(Registers()).st.c)
    {
      hide Add, Bit0, Bit7, U8;
      tmp := v / 2;
      if p.c {
        tmp := tmp + 0x80;
      }
      Mod8Byte(tmp);
      p := p.(c := Bit0(v));
      a, flagN, flagZ, p := AdcMacro(a, tmp, p, Registers().st);
    }

    method Dcp(v: Byte) returns (tmp: int)
      modifies `p, `flagN, `flagZ
      ensures Registers() == ModifyEffect(DCP, old(Registers()), v) && U8(tmp) == Shifted(DCP, v, old(Registers()).st.c)
    {
      tmp := U8(v - 1);
      p := p.(c := a >= tmp);
      LocalSetNZ(a - tmp);
    }

    method Isb(v: Byte) returns (tmp: int)
      modifies `a, `p, `flagN, `flagZ
      ensures Registers() == ModifyEffect(ISB, old(Registers()), v) && U8(tmp) == Shifted(ISB, v, old(Registers()).st.c)
    {
      hide Subtract;
      tmp := U8(v + 1);
      a, flagN, flagZ, p := SbcMacro(a, tmp, p, Registers().st);
    }

    method ModifyValue(op: ModifyOp, v: Byte) returns (tmp: int)
      modifies `a, `p, `flagN, `flagZ
      ensures Registers() == ModifyEffect(op, old(Registers()), v) && U8(tmp) == Shifted(op, v, old(Registers()).st.c)
    {
      hide ModifyEffect, Shifted, Core.Registers;
      match op {
        case ASL => tmp := Asl(v);
        case ROL => tmp := Rol(v);
        case LSR => tmp := Lsr(v);
        case ROR => tmp := Ror(v);
        case DEC => tmp := Dec(v);
        case INC => tmp := Inc(v);
        case SLO => tmp := Slo(v);
        case RLA => tmp := Rla(v);
        case SRE => tmp := Sre(v);
        case RRA => tmp := Rra(v);
        case DCP => tmp := Dcp(v);
        case ISB => tmp := Isb(v);
      }
    }

    /** A read-modify-write instruction; only the combined ones use clkInc1. */
    method Rmw(op: ModifyOp, addr: Word, clkInc1: int, clkInc2: int, pcInc: int, lf: LoadFunc, sf: StoreFunc)
      requires U16(LoadAddress(lf, addr)) == U16(StoreAddress(sf, addr))
      modifies this
      ensures Visible() == Advance(Modified(op, old(Visible()), U16(old(StoreAddress(sf, addr)))),
                                   pcInc, clkInc1 + clkInc2 + Num(lf == LOAD_ABS_X_RMW || lf == LOAD_ABS_Y_RMW))
    {
      hide ModifyEffect, Shifted, Core.Registers, U16;
      Mod16(pc, pcInc);
      clk := clk + clkInc1;
      var v := LoadBy(lf, addr);
      var tmp := ModifyValue(op, v);
      pc := pc + pcInc;
      StoreBy(sf, addr, tmp, clkInc2);
    }

    /** The macros SLO_IND_Y, RLA_IND_Y, SRE_IND_Y, RRA_IND_Y, DCP_IND_Y and ISB_IND_Y. */
    method RmwIndY(op: ModifyOp, addr: Byte)
      modifies this
      ensures Visible() == Advance(Modified(op, old(Visible()), U16(old(ZeroWord(mem, addr) + y))), 2, 6)
    {
      hide ModifyEffect, Shifted, Core.Registers, ZeroWord, U16;
      Mod16(pc, 2);
      clk := clk + 2;
      var tmpAddr := LoadZeroAddr(addr);
      clk := clk + CLK_IND_Y_RMW1;
      var ea := U16(tmpAddr + y);
      Mod16(tmpAddr + y, 0);
      var tmp := ModifyValue(op, Load(ea));
      pc := pc + 2;
      StoreBy(STORE_ABS, ea, tmp, CLK_IND_Y_RMW2);
    }

    // ---- accumulator, transfer and flag instructions ----

    method AslA()
      modifies `a, `p, `flagN, `flagZ
      ensures Registers() == AccumulatorEffect(ASL, old(Registers()))
    {
      var tmp: int := a;
      p := p.(c := Bit7(tmp));
      tmp := U8(2 * tmp);
      a := tmp;
      LocalSetNZ(tmp);
    }

    method LsrA()
      modifies `a, `p, `flagN, `flagZ
      ensures Registers() == AccumulatorEffect(LSR, old(Registers()))
    {
      var tmp := a;
      p := p.(c := Bit0(tmp));
      tmp := tmp / 2;
      a := tmp;
      LocalSetNZ(tmp);
    }

    method RolA()
      modifies `a, `p, `flagN, `flagZ
      ensures Registers() == AccumulatorEffect(ROL, old(Registers()))
    {
      hide Bit7, Bit8, U8;
      var tmp := 2 * a + Num(p.c);
      CarryOut(a, p.c);
      a := U8(tmp);
      LocalSetNZ(tmp);
      p := p.(c := Bit8(tmp));
    }

    method RorA()
      modifies `a, `p, `flagN, `flagZ
      ensures Registers() == AccumulatorEffect(ROR, old(Registers()))
    {
      var tmp := a;
      var tmp2 := tmp / 2 + 0x80 * Num(p.c);
      p := p.(c := Bit0(tmp));
      a := U8(tmp2);
      LocalSetNZ(tmp2);
    }

    method AccumulatorOp(op: ModifyOp, ghost lo: Byte, ghost hi: Byte, ghost s: Cpu)
      requires op == ASL || op == LSR || op == ROL || op == ROR
      requires Visible() == s.(clk := s.clk + 2)
      modifies this
      ensures Visible() == Exec(Accumulator(op), s, lo, hi)
    {
      hide AccumulatorEffect, Core.Registers;
      if op == ASL {
        AslA();
      } else if op == LSR {
        LsrA();
      } else if op == ROL {
        RolA();
      } else {
        RorA();
      }
      Tick(0, 1);
    }

    method Move(op: ImpliedOp)
      requires op == TAX || op == TAY || op == TXA || op == TYA || op == TSX || op == TXS
      modifies `a, `x, `y, `sp, `flagN, `flagZ
      ensures Registers() == TransferEffect(op, old(Registers()))
    {
      hide Bit7, U8;
      Mod8Byte(a);
      Mod8Byte(x);
      Mod8Byte(y);
      Mod8Byte(sp);
      if op == TAX {
        x := a;
        LocalSetNZ(x);
      } else if op == TAY {
        y := a;
        LocalSetNZ(y);
      } else if op == TXA {
        a := x;
        LocalSetNZ(x);
      } else if op == TYA {
        a := y;
        LocalSetNZ(y);
      } else if op == TSX {
        x := sp;
        LocalSetNZ(sp);
      } else {
        sp := x;
      }
    }

    method Count(op: ImpliedOp)
      requires op == DEX || op == DEY || op == INX || op == INY
      modifies `x, `y, `flagN, `flagZ
      ensures Registers() == TransferEffect(op, old(Registers()))
    {
      hide Bit7, U8;
      if op == DEX {
        x := U8(x - 1);
        Mod8Byte(x);
        LocalSetNZ(x);
      } else if op == DEY {
        y := U8(y - 1);
        Mod8Byte(y);
        LocalSetNZ(y);
      } else if op == INX {
        x := U8(x + 1);
        Mod8Byte(x);
        LocalSetNZ(x);
      } else {
        y := U8(y + 1);
        Mod8Byte(y);
        LocalSetNZ(y);
      }
    }

    method SetFlag(op: ImpliedOp)
      requires op == CLC || op == SEC || op == CLI || op == SEI || op == CLV || op == CLD || op == SED
      modifies `p
      ensures Registers() == TransferEffect(op, old(Registers()))
    {
      if op == CLC {
        p := p.(c := false);
      } else if op == SEC {
        p := p.(c := true);
      } else if op == CLI {
        p := p.(i := false);
      } else if op == SEI {
        p := p.(i := true);
      } else if op == CLV {
        p := p.(v := false);
      } else if op == CLD {
        p := p.(d := false);
      } else {
        p := p.(d := true);
      }
    }

    method Transfer(op: ImpliedOp)
      requires op != PHA && op != PHP && op != PLA && op != PLP
      modifies `a, `x, `y, `sp, `p, `flagN, `flagZ
      ensures Registers() == TransferEffect(op, old(Registers()))
    {
      if op == NOPI {
      } else if op == DEX || op == DEY || op == INX || op == INY {
        Count(op);
      } else if op == CLC || op == SEC || op == CLI || op == SEI || op == CLV || op == CLD || op == SED {
        SetFlag(op);
      } else {
        Move(op);
      }
    }

    /** LOCAL_SET_STATUS. */
    method LocalSetStatus(val: Byte)
      modifies `p, `flagN, `flagZ
      ensures Registers() == old(Registers()).(st := Unpacked(val))
    {
      p := RegP(Bit6(val), Bit4(val), Bit3(val), Bit2(val), Bit0(val));
      flagZ := if Bit1(val) then 0 else 1;
      flagN := val;
    }

    method Pha()
      modifies `mem, `sp, `clk
      ensures Visible() == ImpliedEffect(PHA, old(Visible())).(clk := old(clk) + 1)
    {
      clk := clk + CLK_STACK_PUSH;
      PushByte(a);
    }

    method Php()
      modifies `mem, `sp, `clk
      ensures Visible() == ImpliedEffect(PHP, old(Visible())).(clk := old(clk) + 1)
    {
      hide Packed;
      clk := clk + CLK_STACK_PUSH;
      PushByte(Packed(LocalStatus(p, flagN, flagZ).(b := true)));
    }

    method Pla()
      modifies this
      ensures Visible() == ImpliedEffect(PLA, old(Visible())).(clk := old(clk) + 2)
    {
      hide Bit7, U8;
      clk := clk + CLK_STACK_PULL;
      var tmp := PullByte();
      Mod8Byte(tmp);
      a := tmp;
      LocalSetNZ(tmp);
    }

    method Plp()
      modifies this
      ensures Visible() == ImpliedEffect(PLP, old(Visible())).(clk := old(clk) + 2)
    {
      hide Unpacked;
      var s := PullByte();
      clk := clk + CLK_STACK_PULL;
      LocalSetStatus(s);
    }

    method ImpliedBody(op: ImpliedOp)
      modifies this
      ensures Visible() == ImpliedEffect(op, old(Visible())).(clk := old(clk) + ImpliedCycles(op) - 2)
    {
      hide TransferEffect, Core.Registers, Packed, Unpacked, SetA, U8, U16;
      if op == PHA {
        Pha();
      } else if op == PHP {
        Php();
      } else if op == PLA {
        Pla();
      } else if op == PLP {
        Plp();
      } else {
        Transfer(op);
      }
    }

    method Implied(op: ImpliedOp, ghost lo: Byte, ghost hi: Byte, ghost s: Cpu)
      requires Visible() == s.(clk := s.clk + 2)
      modifies this
      ensures Visible() == Exec(Isa6510.Implied(op), s, lo, hi)
    {
      hide ImpliedEffect, ImpliedCycles, Exec, Core.Registers, U16;
      ImpliedExec(op, s, lo, hi);
      ImpliedClock(op, s, s.clk + 2);
      ImpliedPc(op, s);
      ImpliedBody(op);
      Mod16(pc, 1);
      pc := pc + 1;
    }

    // ---- stores ----

    /** STA, SAX, STX and STY with a 16-bit address. */
    method StoreValue(value: Byte, addr: Word, clkInc1: int, clkInc2: int, pcInc: int, sf: StoreFunc)
      modifies this
      ensures Visible() == Advance(old(Visible()).(mem := old(mem)[U16(old(StoreAddress(sf, addr))) := value]),
                                   pcInc, clkInc1 + clkInc2)
    {
      hide Core.Registers, U16;
      Mod16(pc, pcInc);
      clk := clk + clkInc1;
      pc := pc + pcInc;
      StoreBy(sf, addr, value, clkInc2);
    }

    method StoreZero(value: Byte, addr: int, clkInc: int, pcInc: int)
      modifies this
      ensures Visible() == Advance(old(Visible()).(mem := old(mem)[U8(addr) := value]), pcInc, clkInc)
    {
      hide Core.Registers;
      clk := clk + clkInc;
      mem := mem[U8(addr) := value];
      pc := pc + pcInc;
    }

    method StaIndY(addr: Byte)
      modifies this
      ensures Visible() == Advance(old(Visible()).(mem := old(mem)[U16(old(ZeroWord(mem, addr) + y)) := old(a)]), 2, 4)
    {
      hide Core.Registers, ZeroWord, U16;
      Mod16(pc, 2);
      clk := clk + 2;
      var tmp := LoadZeroAddr(addr);
      clk := clk + CLK_IND_Y_W;
      pc := pc + 2;
      mem := StoreTo(mem, tmp + y, a);
    }

    /** The stored value of SHA_ABS_Y, SHX_ABS_Y, SHY_ABS_X and SHS_ABS_Y. */
    function ShValue(op: UnstableOp, baseHi: Byte): Byte
      reads `a, `x, `y
    {
      match op
      case SHA => And(And(a, x), U8(baseHi + 1))
      case SHX => And(x, U8(baseHi + 1))
      case SHY => And(y, U8(baseHi + 1))
      case SHS => And(And(a, x), U8(baseHi + 1))
    }

    method ShAbs(op: UnstableOp, ghost lo: Byte, addr: Word, ghost hi: Byte, ghost s: Cpu)
      requires addr == Pair(lo, hi) && Visible() == s.(clk := s.clk + 3)
      modifies this
      ensures Visible() == Exec(Unstable(op, if op == SHY then AbsoluteX else AbsoluteY), s, lo, hi)
    {
      hide And, LocalStatus, U16, Lo, Hi, U8, Exec, UnstableStore, Advance;
      ShAbsolute(op, s, lo, hi, false);
      ShAbsoluteExec(op, s, lo, hi);
      Mod16(pc, 3);
      PairParts(lo, hi);
      Parts16(addr + (if op == SHY then x else y));
      pc := pc + 3;
      StoreAbsSh(addr, if op == SHY then x else y, ShValue(op, Hi(addr)), CLK_ABS_I_STORE2);
      if op == SHS {
        sp := And(a, x);
      }
    }

    /** The store of SHA_IND_Y; tmp is the pointer it read. */
    method StoreSha(tmp: Word, val: Byte)
      modifies `mem
      ensures mem == old(mem)[(if Lo(tmp) + y > 0xff then Pair(Lo(tmp + y), val) else U16(tmp + y)) := val]
    {
      hide U16, Lo;
      Mod16Word(Pair(Lo(tmp + y), val));
      Mod8Byte(val);
      var tmp2: int := tmp + y;
      if Lo(tmp) + y > 0xff {
        tmp2 := Pair(Lo(tmp2), val);
      }
      mem := StoreTo(mem, tmp2, val);
    }

    method ShaIndY(addr: Byte, ghost hi: Byte, ghost s: Cpu)
      requires Visible() == s.(clk := s.clk + 2)
      modifies this
      ensures Visible() == Exec(Unstable(SHA, IndirectY), s, addr, hi)
    {
      hide And, LocalStatus, U16, Lo, Hi, U8, Exec, UnstableStore, Advance;
      ShaThroughPointer(s, addr, hi, false);
      ShaPointerExec(s, addr, hi);
      Mod16(pc, 2);
      clk := clk + 2;
      var tmp := LoadZeroAddr(addr);
      Parts16(tmp + y);
      clk := clk + CLK_IND_Y_W;
      StoreSha(tmp, And(And(a, x), U8(Hi(tmp) + 1)));
      pc := pc + 2;
    }

    // ---- control flow ----

    /** The branch is taken when cond holds; cond is the flag as the core keeps it, compared with the opcode's bit. */
    method BranchIf(cond: bool, ghost flag: Flag, ghost taken: bool, value: Byte, ghost hi: Byte, ghost s: Cpu)
      requires cond == (FlagOf(Registers().st, flag) == taken)
      requires Visible() == s.(clk := s.clk + 2)
      modifies `pc, `clk
      ensures Visible() == Exec(Branch(flag, taken), s, value, hi)
    {
      hide Core.Registers, U16, Hi, FlagOf;
      Mod16(pc, 2);
      pc := pc + 2;
      Parts16(pc);
      if cond {
        var dest := pc + SignedChar(value);
        Mod16(pc, SignedChar(value));
        Parts16(dest);
        clk := clk + CLK_BRANCH2;
        if Hi(pc) != Hi(dest) {
          clk := clk + CLK_BRANCH2;
        }
        pc := U16(dest);
        Mod16Word(pc);
      }
    }

    method PushPc()
      modifies `mem, `sp
      ensures Visible() == PushWord(old(Visible()), U16(pc))
    {
      hide U16, Hi, Lo, U8, LocalStatus;
      Parts16(pc);
      PushByte(Hi(pc));
      PushByte(Lo(pc));
    }

    method PushStatus()
      modifies `mem, `sp
      ensures Visible() == Push(old(Visible()), Packed(old(Registers()).st))
    {
      hide Packed;
      PushByte(Packed(LocalStatus(p, flagN, flagZ)));
    }

    method TakeVector(nmi: bool)
      modifies `pc
      ensures pc == AbsWord(mem, IrqVector(nmi))
    {
      if nmi {
        pc := LoadAddr(0xfffa);
      } else {
        pc := LoadAddr(0xfffe);
      }
    }

    /** What BRK and DO_INTERRUPT have in common. */
    method EnterHandler(nmi: bool, clkInc: int)
      modifies `mem, `sp, `p, `pc, `clk
      ensures Visible() == Enter(old(Visible()), U16(old(pc)), IrqVector(nmi)).(clk := old(clk) + clkInc + 3)
    {
      hide U16, Hi, Lo, U8, Packed, AbsWord;
      PushPc();
      clk := clk + clkInc;
      PushStatus();
      clk := clk + 1;
      p := p.(i := true);
      TakeVector(nmi);
      Mod16Word(pc);
      clk := clk + 2;
    }

    /** nmi: after the pushes an NMI is pending long enough. */
    method Brk(nmi: bool, ghost lo: Byte, ghost hi: Byte, ghost s: Cpu)
      requires Visible() == s.(clk := s.clk + 2)
      modifies this
      ensures Visible() == Trap(s, U16(s.pc + 2), true, IrqVector(nmi))
    {
      hide U16, U8, Hi, Lo, Packed, AbsWord;
      Mod16(pc, 2);
      pc := pc + 2;
      p := p.(b := true);
      EnterHandler(nmi, CLK_BRK - 3);
    }

    /** DO_INTERRUPT.  nmi, irq: pending, and the delay has passed; sei: the last instruction was a SEI; late: after the
        pushes an NMI is pending long enough. */
    method DoInterrupt(nmi: bool, irq: bool, sei: bool, late: bool)
      modifies this
      ensures Visible() == if nmi || (irq && !Masked(old(Registers()).st, sei))
                           then Trap(old(Visible()), U16(old(pc)), false, IrqVector(late)) else old(Visible())
    {
      hide U16, U8, Hi, Lo, Packed, AbsWord;
      if nmi || (irq && (!p.i || sei)) {
        clk := clk + 1;
        clk := clk + 1;
        p := p.(b := false);
        EnterHandler(late, 2);
      }
    }

    method Jsr(p1: Byte, ghost hi: Byte, ghost s: Cpu)
      requires Visible() == s.(clk := s.clk + 2)
      modifies this
      ensures Visible() == Exec(JSR, s, p1, hi)
    {
      hide U16, Hi, Lo, U8, LocalStatus;
      Mod16(pc, 2);
      clk := clk + 1;
      pc := pc + 2;
      clk := clk + 2;
      PushPc();
      var tmpAddr := Pair(p1, Load(pc));
      clk := clk + CLK_JSR_INT_CYCLE;
      pc := tmpAddr;
      Mod16Word(pc);
    }

    method Rts(ghost lo: Byte, ghost hi: Byte, ghost s: Cpu)
      requires Visible() == s.(clk := s.clk + 2)
      modifies this
      ensures Visible() == Exec(RTS, s, lo, hi)
    {
      hide U16, U8, LocalStatus;
      Mod8(sp + 1, 1);
      Mod16(Pair(Load(0x100 + U8(sp + 1)), Load(0x100 + U8(sp + 2))), 1);
      clk := clk + CLK_RTS;
      var tmp := PullByte();
      var high := PullByte();
      pc := Pair(tmp, high);
      clk := clk + CLK_INT_CYCLE;
      pc := pc + 1;
    }

    method Rti(ghost lo: Byte, ghost hi: Byte, ghost s: Cpu)
      requires Visible() == s.(clk := s.clk + 2)
      modifies this
      ensures Visible() == Exec(RTI, s, lo, hi)
    {
      hide Unpacked, U8, Exec, LocalStatus;
      RtiExec(s, lo, hi);
      clk := clk + CLK_RTI;
      var tmp := PullByte();
      LocalSetStatus(tmp);
      pc := PullAddress();
      Mod16Word(pc);
      Mod8(s.r.sp + 1, 1);
      Mod8(s.r.sp + 1, 2);
    }

    method PullAddress() returns (w: Word)
      modifies `sp
      ensures sp == U8(old(sp) + 2) && w == Pair(Peek(mem, 0x100 + U8(old(sp) + 1)), Peek(mem, 0x100 + U8(old(sp) + 2)))
    {
      hide U8;
      Mod8(sp + 1, 1);
      var low := PullByte();
      var high := PullByte();
      w := Pair(low, high);
    }

    method Jmp(ghost lo: Byte, p2: Word, ghost hi: Byte, ghost s: Cpu)
      requires p2 == Pair(lo, hi) && Visible() == s.(clk := s.clk + 3)
      modifies `pc
      ensures Visible() == Exec(JMP, s, lo, hi)
    {
      hide Core.Registers, U16;
      Mod16Word(p2);
      pc := p2;
    }

    method JmpInd(ghost lo: Byte, p2: Word, ghost hi: Byte, ghost s: Cpu)
      requires p2 == Pair(lo, hi) && Visible() == s.(clk := s.clk + 3)
      modifies `pc, `clk
      ensures Visible() == Exec(JMPI, s, lo, hi)
    {
      hide Core.Registers, U16, U8, Lo, Hi;
      var dest := Load(p2);
      clk := clk + 1;
      NextInPage(lo, hi);
      Mod16Word(p2);
      Mod16Word(InPage(p2, p2 + 1));
      var high := Load(InPage(p2, p2 + 1));
      clk := clk + 1;
      pc := Pair(dest, high);
      Mod16Word(pc);
    }

    // ---- the cases of the opcode switch, one method per operation class and addressing mode:
    //      all cases of one mode pass the same clk_inc and pc_inc ----

    /** What STA, STX, STY and SAX store. */
    function Source(op: WriteOp): Byte
      reads `a, `x, `y
    {
      match op
      case STA => a
      case STX => x
      case STY => y
      case SAX => And(a, x)
    }

    method ReadImm(op: ReadOp, p1: Byte, ghost hi: Byte, ghost s: Cpu)
      requires Visible() == s.(clk := s.clk + 2)
      modifies this
      ensures Visible() == Exec(Read(op, Immediate), s, p1, hi)
    {
      hide ReadEffect, ModifyEffect, Shifted, And, U8, U16, Lo, Hi, ZeroWord, Core.Registers;
      Addresses(p1, hi);
      Alu(op, p1, 0, 2);
    }

    method ReadZero(op: ReadOp, p1: Byte, ghost hi: Byte, ghost s: Cpu)
      requires Visible() == s.(clk := s.clk + 2)
      modifies this
      ensures Visible() == Exec(Read(op, Zero), s, p1, hi)
    {
      hide ReadEffect, ModifyEffect, Shifted, And, U8, U16, Lo, Hi, ZeroWord, Core.Registers;
      Addresses(p1, hi);
      Alu(op, LoadZero(p1), 1, 2);
    }

    method ReadZeroX(op: ReadOp, p1: Byte, ghost hi: Byte, ghost s: Cpu)
      requires Visible() == s.(clk := s.clk + 2)
      modifies this
      ensures Visible() == Exec(Read(op, ZeroX), s, p1, hi)
    {
      hide ReadEffect, ModifyEffect, Shifted, And, U8, U16, Lo, Hi, ZeroWord, LocalStatus;
      Addresses(p1, hi);
      Alu(op, LoadZero(p1 + x), CLK_ZERO_I2, 2);
    }

    method ReadZeroY(op: ReadOp, p1: Byte, ghost hi: Byte, ghost s: Cpu)
      requires Visible() == s.(clk := s.clk + 2)
      modifies this
      ensures Visible() == Exec(Read(op, ZeroY), s, p1, hi)
    {
      hide ReadEffect, ModifyEffect, Shifted, And, U8, U16, Lo, Hi, ZeroWord, LocalStatus;
      Addresses(p1, hi);
      Alu(op, LoadZero(p1 + y), CLK_ZERO_I2, 2);
    }

    method ReadAbs(op: ReadOp, p1: Byte, p2: Word, ghost hi: Byte, ghost s: Cpu)
      requires p2 == Pair(p1, hi) && Visible() == s.(clk := s.clk + 3)
      modifies this
      ensures Visible() == Exec(Read(op, Absolute), s, p1, hi)
    {
      hide ReadEffect, ModifyEffect, Shifted, And, U8, U16, Lo, Hi, ZeroWord, Core.Registers;
      Addresses(p1, hi);
      Alu(op, Load(p2), 1, 3);
    }

    method ReadAbsX(op: ReadOp, p1: Byte, p2: Word, ghost hi: Byte, ghost s: Cpu)
      requires p2 == Pair(p1, hi) && Visible() == s.(clk := s.clk + 3)
      modifies this
      ensures Visible() == Exec(Read(op, AbsoluteX), s, p1, hi)
    {
      hide ReadEffect, ModifyEffect, Shifted, And, U8, U16, Lo, Hi, ZeroWord, LocalStatus;
      Addresses(p1, hi);
      var v := LoadAbsI(p2, x);
      Alu(op, v, 1, 3);
    }

    method ReadAbsY(op: ReadOp, p1: Byte, p2: Word, ghost hi: Byte, ghost s: Cpu)
      requires p2 == Pair(p1, hi) && Visible() == s.(clk := s.clk + 3)
      modifies this
      ensures Visible() == Exec(Read(op, AbsoluteY), s, p1, hi)
    {
      hide ReadEffect, ModifyEffect, Shifted, And, U8, U16, Lo, Hi, ZeroWord, LocalStatus;
      Addresses(p1, hi);
      var v := LoadAbsI(p2, y);
      Alu(op, v, 1, 3);
    }

    method ReadIndX(op: ReadOp, p1: Byte, ghost hi: Byte, ghost s: Cpu)
      requires Visible() == s.(clk := s.clk + 2)
      modifies this
      ensures Visible() == Exec(Read(op, IndirectX), s, p1, hi)
    {
      hide ReadEffect, ModifyEffect, Shifted, And, U8, U16, Lo, Hi, ZeroWord, LocalStatus;
      Addresses(p1, hi);
      var v := LoadIndX(p1);
      Alu(op, v, 1, 2);
    }

    method ReadIndY(op: ReadOp, p1: Byte, ghost hi: Byte, ghost s: Cpu)
      requires Visible() == s.(clk := s.clk + 2)
      modifies this
      ensures Visible() == Exec(Read(op, IndirectY), s, p1, hi)
    {
      hide ReadEffect, ModifyEffect, Shifted, And, U8, U16, Lo, Hi, ZeroWord, LocalStatus;
      Addresses(p1, hi);
      var v := LoadIndY(p1);
      Alu(op, v, 1, 2);
    }

    method ModifyZero(op: ModifyOp, p1: Byte, ghost hi: Byte, ghost s: Cpu)
      requires Visible() == s.(clk := s.clk + 2)
      modifies this
      ensures Visible() == Exec(Modify(op, Zero), s, p1, hi)
    {
      hide ReadEffect, ModifyEffect, Shifted, And, U8, U16, Lo, Hi, ZeroWord, Core.Registers;
      Addresses(p1, hi);
      Rmw(op, p1, 0, CLK_ZERO_RMW, 2, LOAD_ZERO, STORE_ABS);
    }

    method ModifyZeroX(op: ModifyOp, p1: Byte, ghost hi: Byte, ghost s: Cpu)
      requires Visible() == s.(clk := s.clk + 2)
      modifies this
      ensures Visible() == Exec(Modify(op, ZeroX), s, p1, hi)
    {
      hide ReadEffect, ModifyEffect, Shifted, And, U8, U16, Lo, Hi, ZeroWord, LocalStatus;
      Addresses(p1, hi);
      Rmw(op, U8(p1 + x), 0, CLK_ZERO_I_RMW, 2, LOAD_ZERO, STORE_ABS);
    }

    method ModifyAbs(op: ModifyOp, p1: Byte, p2: Word, ghost hi: Byte, ghost s: Cpu)
      requires p2 == Pair(p1, hi) && Visible() == s.(clk := s.clk + 3)
      modifies this
      ensures Visible() == Exec(Modify(op, Absolute), s, p1, hi)
    {
      hide ReadEffect, ModifyEffect, Shifted, And, U8, U16, Lo, Hi, ZeroWord, Core.Registers;
      Addresses(p1, hi);
      Rmw(op, p2, 0, CLK_ABS_RMW2, 3, LOAD_ABS, STORE_ABS);
    }

    method ModifyAbsX(op: ModifyOp, p1: Byte, p2: Word, ghost hi: Byte, ghost s: Cpu)
      requires p2 == Pair(p1, hi) && Visible() == s.(clk := s.clk + 3)
      modifies this
      ensures Visible() == Exec(Modify(op, AbsoluteX), s, p1, hi)
    {
      hide ReadEffect, ModifyEffect, Shifted, And, U8, U16, Lo, Hi, ZeroWord, LocalStatus;
      Addresses(p1, hi);
      Rmw(op, p2, 0, CLK_ABS_I_RMW2, 3, LOAD_ABS_X_RMW, STORE_ABS_X_RMW);
    }

    method ModifyAbsY(op: ModifyOp, p1: Byte, p2: Word, ghost hi: Byte, ghost s: Cpu)
      requires p2 == Pair(p1, hi) && Visible() == s.(clk := s.clk + 3)
      modifies this
      ensures Visible() == Exec(Modify(op, AbsoluteY), s, p1, hi)
    {
      hide ReadEffect, ModifyEffect, Shifted, And, U8, U16, Lo, Hi, ZeroWord, LocalStatus;
      Addresses(p1, hi);
      Rmw(op, p2, 0, CLK_ABS_I_RMW2, 3, LOAD_ABS_Y_RMW, STORE_ABS_Y_RMW);
    }

    method ModifyIndX(op: ModifyOp, p1: Byte, ghost hi: Byte, ghost s: Cpu)
      requires Visible() == s.(clk := s.clk + 2)
      modifies this
      ensures Visible() == Exec(Modify(op, IndirectX), s, p1, hi)
    {
      hide ReadEffect, ModifyEffect, Shifted, And, U8, U16, Lo, Hi, ZeroWord, LocalStatus;
      Addresses(p1, hi);
      Rmw(op, LoadZeroAddr(p1 + x), 3, CLK_IND_X_RMW, 2, LOAD_ABS, STORE_ABS);
    }

    method ModifyIndY(op: ModifyOp, p1: Byte, ghost hi: Byte, ghost s: Cpu)
      requires Visible() == s.(clk := s.clk + 2)
      modifies this
      ensures Visible() == Exec(Modify(op, IndirectY), s, p1, hi)
    {
      hide ReadEffect, ModifyEffect, Shifted, And, U8, U16, Lo, Hi, ZeroWord, LocalStatus;
      Addresses(p1, hi);
      RmwIndY(op, p1);
    }

    method WriteZero(op: WriteOp, p1: Byte, ghost hi: Byte, ghost s: Cpu)
      requires Visible() == s.(clk := s.clk + 2)
      modifies this
      ensures Visible() == Exec(Write(op, Zero), s, p1, hi)
    {
      hide ReadEffect, ModifyEffect, Shifted, And, U8, U16, Lo, Hi, ZeroWord, LocalStatus;
      Addresses(p1, hi);
      StoreZero(Source(op), p1, 1, 2);
    }

    method WriteZeroX(op: WriteOp, p1: Byte, ghost hi: Byte, ghost s: Cpu)
      requires Visible() == s.(clk := s.clk + 2)
      modifies this
      ensures Visible() == Exec(Write(op, ZeroX), s, p1, hi)
    {
      hide ReadEffect, ModifyEffect, Shifted, And, U8, U16, Lo, Hi, ZeroWord, LocalStatus;
      Addresses(p1, hi);
      StoreZero(Source(op), p1 + x, CLK_ZERO_I_STORE, 2);
    }

    method WriteZeroY(op: WriteOp, p1: Byte, ghost hi: Byte, ghost s: Cpu)
      requires Visible() == s.(clk := s.clk + 2)
      modifies this
      ensures Visible() == Exec(Write(op, ZeroY), s, p1, hi)
    {
      hide ReadEffect, ModifyEffect, Shifted, And, U8, U16, Lo, Hi, ZeroWord, LocalStatus;
      Addresses(p1, hi);
      StoreZero(Source(op), p1 + y, CLK_ZERO_I_STORE, 2);
    }

    method WriteAbs(op: WriteOp, p1: Byte, p2: Word, ghost hi: Byte, ghost s: Cpu)
      requires p2 == Pair(p1, hi) && Visible() == s.(clk := s.clk + 3)
      modifies this
      ensures Visible() == Exec(Write(op, Absolute), s, p1, hi)
    {
      hide ReadEffect, ModifyEffect, Shifted, And, U8, U16, Lo, Hi, ZeroWord, LocalStatus;
      Addresses(p1, hi);
      StoreValue(Source(op), p2, 0, 1, 3, STORE_ABS);
    }

    method WriteAbsX(op: WriteOp, p1: Byte, p2: Word, ghost hi: Byte, ghost s: Cpu)
      requires p2 == Pair(p1, hi) && Visible() == s.(clk := s.clk + 3)
      modifies this
      ensures Visible() == Exec(Write(op, AbsoluteX), s, p1, hi)
    {
      hide ReadEffect, ModifyEffect, Shifted, And, U8, U16, Lo, Hi, ZeroWord, LocalStatus;
      Addresses(p1, hi);
      StoreValue(Source(op), p2, 0, CLK_ABS_I_STORE2, 3, STORE_ABS_X);
    }

    method WriteAbsY(op: WriteOp, p1: Byte, p2: Word, ghost hi: Byte, ghost s: Cpu)
      requires p2 == Pair(p1, hi) && Visible() == s.(clk := s.clk + 3)
      modifies this
      ensures Visible() == Exec(Write(op, AbsoluteY), s, p1, hi)
    {
      hide ReadEffect, ModifyEffect, Shifted, And, U8, U16, Lo, Hi, ZeroWord, LocalStatus;
      Addresses(p1, hi);
      StoreValue(Source(op), p2, 0, CLK_ABS_I_STORE2, 3, STORE_ABS_Y);
    }

    method WriteIndX(op: WriteOp, p1: Byte, ghost hi: Byte, ghost s: Cpu)
      requires Visible() == s.(clk := s.clk + 2)
      modifies this
      ensures Visible() == Exec(Write(op, IndirectX), s, p1, hi)
    {
      hide ReadEffect, ModifyEffect, Shifted, And, U8, U16, Lo, Hi, ZeroWord, LocalStatus;
      Addresses(p1, hi);
      StoreValue(Source(op), LoadZeroAddr(p1 + x), 3, 1, 2, STORE_ABS);
    }

    method WriteIndY(op: WriteOp, p1: Byte, ghost hi: Byte, ghost s: Cpu)
      requires op == STA && Visible() == s.(clk := s.clk + 2)
      modifies this
      ensures Visible() == Exec(Write(op, IndirectY), s, p1, hi)
    {
      hide ReadEffect, ModifyEffect, Shifted, And, U8, U16, Lo, Hi, ZeroWord, LocalStatus;
      Addresses(p1, hi);
      StaIndY(p1);
    }

    // ---- the switch over the opcode, a row of sixteen at a time; the last opcode of a row is its default ----

    method Execute0(op: Byte, nmi: bool, p1: Byte, p2: Word, ghost hi: Byte, ghost s: Cpu)
      requires op / 16 == 0 && Decode(op) != JAM && p2 == P2(op, p1, hi)
      requires Visible() == s.(clk := s.clk + FetchCycles(op))
      modifies this
      ensures Visible() == Executed(op, nmi, s, p1, hi)
    {
      hide Exec, Decode, Core.Visible;
      Decoded0Low();
      Decoded0High();
      BrkExecuted(nmi, s, p1, hi);
      match op {
        case 0x00 => Brk(nmi, p1, hi, s);
        case 0x01 => ReadIndX(ORA, p1, hi, s);
        case 0x03 => ModifyIndX(SLO, p1, hi, s);
        case 0x04 => ReadZero(NOP, p1, hi, s);
        case 0x05 => ReadZero(ORA, p1, hi, s);
        case 0x06 => ModifyZero(ASL, p1, hi, s);
        case 0x07 => ModifyZero(SLO, p1, hi, s);
        case 0x08 => Implied(PHP, p1, hi, s);
        case 0x09 => ReadImm(ORA, p1, hi, s);
        case 0x0a => AccumulatorOp(ASL, p1, hi, s);
        case 0x0b => ReadImm(ANC, p1, hi, s);
        case 0x0c => ReadAbs(NOP, p1, p2, hi, s);
        case 0x0d => ReadAbs(ORA, p1, p2, hi, s);
        case 0x0e => ModifyAbs(ASL, p1, p2, hi, s);
        case _ => ModifyAbs(SLO, p1, p2, hi, s);
      }
    }

    method Execute1(op: Byte, p1: Byte, p2: Word, ghost hi: Byte, ghost s: Cpu)
      requires op / 16 == 1 && Decode(op) != JAM && p2 == P2(op, p1, hi)
      requires Visible() == s.(clk := s.clk + FetchCycles(op))
      modifies this
      ensures Visible() == Exec(Decode(op), s, p1, hi)
    {
      hide Exec, Decode, Core.Visible;
      Decoded1Low();
      Decoded1High();
      match op {
        case 0x10 => BranchIf(!Bit7(flagN), N, false, p1, hi, s);
        case 0x11 => ReadIndY(ORA, p1, hi, s);
        case 0x13 => ModifyIndY(SLO, p1, hi, s);
        case 0x14 => ReadZeroX(NOP, p1, hi, s);
        case 0x15 => ReadZeroX(ORA, p1, hi, s);
        case 0x16 => ModifyZeroX(ASL, p1, hi, s);
        case 0x17 => ModifyZeroX(SLO, p1, hi, s);
        case 0x18 => Implied(CLC, p1, hi, s);
        case 0x19 => ReadAbsY(ORA, p1, p2, hi, s);
        case 0x1a => Implied(NOPI, p1, hi, s);
        case 0x1b => ModifyAbsY(SLO, p1, p2, hi, s);
        case 0x1c => ReadAbsX(NOP, p1, p2, hi, s);
        case 0x1d => ReadAbsX(ORA, p1, p2, hi, s);
        case 0x1e => ModifyAbsX(ASL, p1, p2, hi, s);
        case _ => ModifyAbsX(SLO, p1, p2, hi, s);
      }
    }

    method Execute2(op: Byte, p1: Byte, p2: Word, ghost hi: Byte, ghost s: Cpu)
      requires op / 16 == 2 && Decode(op) != JAM && p2 == P2(op, p1, hi)
      requires Visible() == s.(clk := s.clk + FetchCycles(op))
      modifies this
      ensures Visible() == Exec(Decode(op), s, p1, hi)
    {
      hide Exec, Decode, Core.Visible;
      Decoded2Low();
      Decoded2High();
      match op {
        case 0x20 => Jsr(p1, hi, s);
        case 0x21 => ReadIndX(AND, p1, hi, s);
        case 0x23 => ModifyIndX(RLA, p1, hi, s);
        case 0x24 => ReadZero(BIT, p1, hi, s);
        case 0x25 => ReadZero(AND, p1, hi, s);
        case 0x26 => ModifyZero(ROL, p1, hi, s);
        case 0x27 => ModifyZero(RLA, p1, hi, s);
        case 0x28 => Implied(PLP, p1, hi, s);
        case 0x29 => ReadImm(AND, p1, hi, s);
        case 0x2a => AccumulatorOp(ROL, p1, hi, s);
        case 0x2b => ReadImm(ANC, p1, hi, s);
        case 0x2c => ReadAbs(BIT, p1, p2, hi, s);
        case 0x2d => ReadAbs(AND, p1, p2, hi, s);
        case 0x2e => ModifyAbs(ROL, p1, p2, hi, s);
        case _ => ModifyAbs(RLA, p1, p2, hi, s);
      }
    }

    method Execute3(op: Byte, p1: Byte, p2: Word, ghost hi: Byte, ghost s: Cpu)
      requires op / 16 == 3 && Decode(op) != JAM && p2 == P2(op, p1, hi)
      requires Visible() == s.(clk := s.clk + FetchCycles(op))
      modifies this
      ensures Visible() == Exec(Decode(op), s, p1, hi)
    {
      hide Exec, Decode, Core.Visible;
      Decoded3Low();
      Decoded3High();
      match op {
        case 0x30 => BranchIf(Bit7(flagN), N, true, p1, hi, s);
        case 0x31 => ReadIndY(AND, p1, hi, s);
        case 0x33 => ModifyIndY(RLA, p1, hi, s);
        case 0x34 => ReadZeroX(NOP, p1, hi, s);
        case 0x35 => ReadZeroX(AND, p1, hi, s);
        case 0x36 => ModifyZeroX(ROL, p1, hi, s);
        case 0x37 => ModifyZeroX(RLA, p1, hi, s);
        case 0x38 => Implied(SEC, p1, hi, s);
        case 0x39 => ReadAbsY(AND, p1, p2, hi, s);
        case 0x3a => Implied(NOPI, p1, hi, s);
        case 0x3b => ModifyAbsY(RLA, p1, p2, hi, s);
        case 0x3c => ReadAbsX(NOP, p1, p2, hi, s);
        case 0x3d => ReadAbsX(AND, p1, p2, hi, s);
        case 0x3e => ModifyAbsX(ROL, p1, p2, hi, s);
        case _ => ModifyAbsX(RLA, p1, p2, hi, s);
      }
    }

    method Execute4(op: Byte, p1: Byte, p2: Word, ghost hi: Byte, ghost s: Cpu)
      requires op / 16 == 4 && Decode(op) != JAM && p2 == P2(op, p1, hi)
      requires Visible() == s.(clk := s.clk + FetchCycles(op))
      modifies this
      ensures Visible() == Exec(Decode(op), s, p1, hi)
    {
      hide Exec, Decode, Core.Visible;
      Decoded4Low();
      Decoded4High();
      match op {
        case 0x40 => Rti(p1, hi, s);
        case 0x41 => ReadIndX(EOR, p1, hi, s);
        case 0x43 => ModifyIndX(SRE, p1, hi, s);
        case 0x44 => ReadZero(NOP, p1, hi, s);
        case 0x45 => ReadZero(EOR, p1, hi, s);
        case 0x46 => ModifyZero(LSR, p1, hi, s);
        case 0x47 => ModifyZero(SRE, p1, hi, s);
        case 0x48 => Implied(PHA, p1, hi, s);
        case 0x49 => ReadImm(EOR, p1, hi, s);
        case 0x4a => AccumulatorOp(LSR, p1, hi, s);
        case 0x4b => ReadImm(ASR, p1, hi, s);
        case 0x4c => Jmp(p1, p2, hi, s);
        case 0x4d => ReadAbs(EOR, p1, p2, hi, s);
        case 0x4e => ModifyAbs(LSR, p1, p2, hi, s);
        case _ => ModifyAbs(SRE, p1, p2, hi, s);
      }
    }

    method Execute5(op: Byte, p1: Byte, p2: Word, ghost hi: Byte, ghost s: Cpu)
      requires op / 16 == 5 && Decode(op) != JAM && p2 == P2(op, p1, hi)
      requires Visible() == s.(clk := s.clk + FetchCycles(op))
      modifies this
      ensures Visible() == Exec(Decode(op), s, p1, hi)
    {
      hide Exec, Decode, Core.Visible;
      Decoded5Low();
      Decoded5High();
      match op {
        case 0x50 => BranchIf(!p.v, V, false, p1, hi, s);
        case 0x51 => ReadIndY(EOR, p1, hi, s);
        case 0x53 => ModifyIndY(SRE, p1, hi, s);
        case 0x54 => ReadZeroX(NOP, p1, hi, s);
        case 0x55 => ReadZeroX(EOR, p1, hi, s);
        case 0x56 => ModifyZeroX(LSR, p1, hi, s);
        case 0x57 => ModifyZeroX(SRE, p1, hi, s);
        case 0x58 => Implied(CLI, p1, hi, s);
        case 0x59 => ReadAbsY(EOR, p1, p2, hi, s);
        case 0x5a => Implied(NOPI, p1, hi, s);
        case 0x5b => ModifyAbsY(SRE, p1, p2, hi, s);
        case 0x5c => ReadAbsX(NOP, p1, p2, hi, s);
        case 0x5d => ReadAbsX(EOR, p1, p2, hi, s);
        case 0x5e => ModifyAbsX(LSR, p1, p2, hi, s);
        case _ => ModifyAbsX(SRE, p1, p2, hi, s);
      }
    }

    method Execute6(op: Byte, p1: Byte, p2: Word, ghost hi: Byte, ghost s: Cpu)
      requires op / 16 == 6 && Decode(op) != JAM && p2 == P2(op, p1, hi)
      requires Visible() == s.(clk := s.clk + FetchCycles(op))
      modifies this
      ensures Visible() == Exec(Decode(op), s, p1, hi)
    {
      hide Exec, Decode, Core.Visible;
      Decoded6Low();
      Decoded6High();
      match op {
        case 0x60 => Rts(p1, hi, s);
        case 0x61 => ReadIndX(ADC, p1, hi, s);
        case 0x63 => ModifyIndX(RRA, p1, hi, s);
        case 0x64 => ReadZero(NOP, p1, hi, s);
        case 0x65 => ReadZero(ADC, p1, hi, s);
        case 0x66 => ModifyZero(ROR, p1, hi, s);
        case 0x67 => ModifyZero(RRA, p1, hi, s);
        case 0x68 => Implied(PLA, p1, hi, s);
        case 0x69 => ReadImm(ADC, p1, hi, s);
        case 0x6a => AccumulatorOp(ROR, p1, hi, s);
        case 0x6b => ReadImm(ARR, p1, hi, s);
        case 0x6c => JmpInd(p1, p2, hi, s);
        case 0x6d => ReadAbs(ADC, p1, p2, hi, s);
        case 0x6e => ModifyAbs(ROR, p1, p2, hi, s);
        case _ => ModifyAbs(RRA, p1, p2, hi, s);
      }
    }

    method Execute7(op: Byte, p1: Byte, p2: Word, ghost hi: Byte, ghost s: Cpu)
      requires op / 16 == 7 && Decode(op) != JAM && p2 == P2(op, p1, hi)
      requires Visible() == s.(clk := s.clk + FetchCycles(op))
      modifies this
      ensures Visible() == Exec(Decode(op), s, p1, hi)
    {
      hide Exec, Decode, Core.Visible;
      Decoded7Low();
      Decoded7High();
      match op {
        case 0x70 => BranchIf(p.v, V, true, p1, hi, s);
        case 0x71 => ReadIndY(ADC, p1, hi, s);
        case 0x73 => ModifyIndY(RRA, p1, hi, s);
        case 0x74 => ReadZeroX(NOP, p1, hi, s);
        case 0x75 => ReadZeroX(ADC, p1, hi, s);
        case 0x76 => ModifyZeroX(ROR, p1, hi, s);
        case 0x77 => ModifyZeroX(RRA, p1, hi, s);
        case 0x78 => Implied(SEI, p1, hi, s);
        case 0x79 => ReadAbsY(ADC, p1, p2, hi, s);
        case 0x7a => Implied(NOPI, p1, hi, s);
        case 0x7b => ModifyAbsY(RRA, p1, p2, hi, s);
        case 0x7c => ReadAbsX(NOP, p1, p2, hi, s);
        case 0x7d => ReadAbsX(ADC, p1, p2, hi, s);
        case 0x7e => ModifyAbsX(ROR, p1, p2, hi, s);
        case _ => ModifyAbsX(RRA, p1, p2, hi, s);
      }
    }

    method Execute8(op: Byte, p1: Byte, p2: Word, ghost hi: Byte, ghost s: Cpu)
      requires op / 16 == 8 && Decode(op) != JAM && p2 == P2(op, p1, hi)
      requires Visible() == s.(clk := s.clk + FetchCycles(op))
      modifies this
      ensures Visible() == Exec(Decode(op), s, p1, hi)
    {
      hide Exec, Decode, Core.Visible;
      Decoded8Low();
      Decoded8High();
      match op {
        case 0x80 | 0x82 | 0x89 => ReadImm(NOP, p1, hi, s);
        case 0x81 => WriteIndX(STA, p1, hi, s);
        case 0x83 => WriteIndX(SAX, p1, hi, s);
        case 0x84 => WriteZero(STY, p1, hi, s);
        case 0x85 => WriteZero(STA, p1, hi, s);
        case 0x86 => WriteZero(STX, p1, hi, s);
        case 0x87 => WriteZero(SAX, p1, hi, s);
        case 0x88 => Implied(DEY, p1, hi, s);
        case 0x8a => Implied(TXA, p1, hi, s);
        case 0x8b => ReadImm(ANE, p1, hi, s);
        case 0x8c => WriteAbs(STY, p1, p2, hi, s);
        case 0x8d => WriteAbs(STA, p1, p2, hi, s);
        case 0x8e => WriteAbs(STX, p1, p2, hi, s);
        case _ => WriteAbs(SAX, p1, p2, hi, s);
      }
    }

    method Execute9(op: Byte, p1: Byte, p2: Word, ghost hi: Byte, ghost s: Cpu)
      requires op / 16 == 9 && Decode(op) != JAM && p2 == P2(op, p1, hi)
      requires Visible() == s.(clk := s.clk + FetchCycles(op))
      modifies this
      ensures Visible() == Exec(Decode(op), s, p1, hi)
    {
      hide Exec, Decode, Core.Visible;
      Decoded9Low();
      Decoded9High();
      match op {
        case 0x90 => BranchIf(!p.c, C, false, p1, hi, s);
        case 0x91 => WriteIndY(STA, p1, hi, s);
        case 0x93 => ShaIndY(p1, hi, s);
        case 0x94 => WriteZeroX(STY, p1, hi, s);
        case 0x95 => WriteZeroX(STA, p1, hi, s);
        case 0x96 => WriteZeroY(STX, p1, hi, s);
        case 0x97 => WriteZeroY(SAX, p1, hi, s);
        case 0x98 => Implied(TYA, p1, hi, s);
        case 0x99 => WriteAbsY(STA, p1, p2, hi, s);
        case 0x9a => Implied(TXS, p1, hi, s);
        case 0x9b => ShAbs(SHS, p1, p2, hi, s);
        case 0x9c => ShAbs(SHY, p1, p2, hi, s);
        case 0x9d => WriteAbsX(STA, p1, p2, hi, s);
        case 0x9e => ShAbs(SHX, p1, p2, hi, s);
        case _ => ShAbs(SHA, p1, p2, hi, s);
      }
    }

    method ExecuteA(op: Byte, p1: Byte, p2: Word, ghost hi: Byte, ghost s: Cpu)
      requires op / 16 == 10 && Decode(op) != JAM && p2 == P2(op, p1, hi)
      requires Visible() == s.(clk := s.clk + FetchCycles(op))
      modifies this
      ensures Visible() == Exec(Decode(op), s, p1, hi)
    {
      hide Exec, Decode, Core.Visible;
      DecodedALow();
      DecodedAHigh();
      match op {
        case 0xa0 => ReadImm(LDY, p1, hi, s);
        case 0xa1 => ReadIndX(LDA, p1, hi, s);
        case 0xa2 => ReadImm(LDX, p1, hi, s);
        case 0xa3 => ReadIndX(LAX, p1, hi, s);
        case 0xa4 => ReadZero(LDY, p1, hi, s);
        case 0xa5 => ReadZero(LDA, p1, hi, s);
        case 0xa6 => ReadZero(LDX, p1, hi, s);
        case 0xa7 => ReadZero(LAX, p1, hi, s);
        case 0xa8 => Implied(TAY, p1, hi, s);
        case 0xa9 => ReadImm(LDA, p1, hi, s);
        case 0xaa => Implied(TAX, p1, hi, s);
        case 0xab => ReadImm(LXA, p1, hi, s);
        case 0xac => ReadAbs(LDY, p1, p2, hi, s);
        case 0xad => ReadAbs(LDA, p1, p2, hi, s);
        case 0xae => ReadAbs(LDX, p1, p2, hi, s);
        case _ => ReadAbs(LAX, p1, p2, hi, s);
      }
    }

    method ExecuteB(op: Byte, p1: Byte, p2: Word, ghost hi: Byte, ghost s: Cpu)
      requires op / 16 == 11 && Decode(op) != JAM && p2 == P2(op, p1, hi)
      requires Visible() == s.(clk := s.clk + FetchCycles(op))
      modifies this
      ensures Visible() == Exec(Decode(op), s, p1, hi)
    {
      hide Exec, Decode, Core.Visible;
      DecodedBLow();
      DecodedBHigh();
      match op {
        case 0xb0 => BranchIf(p.c, C, true, p1, hi, s);
        case 0xb1 => ReadIndY(LDA, p1, hi, s);
        case 0xb3 => ReadIndY(LAX, p1, hi, s);
        case 0xb4 => ReadZeroX(LDY, p1, hi, s);
        case 0xb5 => ReadZeroX(LDA, p1, hi, s);
        case 0xb6 => ReadZeroY(LDX, p1, hi, s);
        case 0xb7 => ReadZeroY(LAX, p1, hi, s);
        case 0xb8 => Implied(CLV, p1, hi, s);
        case 0xb9 => ReadAbsY(LDA, p1, p2, hi, s);
        case 0xba => Implied(TSX, p1, hi, s);
        case 0xbb => ReadAbsY(LAS, p1, p2, hi, s);
        case 0xbc => ReadAbsX(LDY, p1, p2, hi, s);
        case 0xbd => ReadAbsX(LDA, p1, p2, hi, s);
        case 0xbe => ReadAbsY(LDX, p1, p2, hi, s);
        case _ => ReadAbsY(LAX, p1, p2, hi, s);
      }
    }

    method ExecuteC(op: Byte, p1: Byte, p2: Word, ghost hi: Byte, ghost s: Cpu)
      requires op / 16 == 12 && Decode(op) != JAM && p2 == P2(op, p1, hi)
      requires Visible() == s.(clk := s.clk + FetchCycles(op))
      modifies this
      ensures Visible() == Exec(Decode(op), s, p1, hi)
    {
      hide Exec, Decode, Core.Visible;
      DecodedCLow();
      DecodedCHigh();
      match op {
        case 0xc0 => ReadImm(CPY, p1, hi, s);
        case 0xc1 => ReadIndX(CMP, p1, hi, s);
        case 0xc2 => ReadImm(NOP, p1, hi, s);
        case 0xc3 => ModifyIndX(DCP, p1, hi, s);
        case 0xc4 => ReadZero(CPY, p1, hi, s);
        case 0xc5 => ReadZero(CMP, p1, hi, s);
        case 0xc6 => ModifyZero(DEC, p1, hi, s);
        case 0xc7 => ModifyZero(DCP, p1, hi, s);
        case 0xc8 => Implied(INY, p1, hi, s);
        case 0xc9 => ReadImm(CMP, p1, hi, s);
        case 0xca => Implied(DEX, p1, hi, s);
        case 0xcb => ReadImm(SBX, p1, hi, s);
        case 0xcc => ReadAbs(CPY, p1, p2, hi, s);
        case 0xcd => ReadAbs(CMP, p1, p2, hi, s);
        case 0xce => ModifyAbs(DEC, p1, p2, hi, s);
        case _ => ModifyAbs(DCP, p1, p2, hi, s);
      }
    }

    method ExecuteD(op: Byte, p1: Byte, p2: Word, ghost hi: Byte, ghost s: Cpu)
      requires op / 16 == 13 && Decode(op) != JAM && p2 == P2(op, p1, hi)
      requires Visible() == s.(clk := s.clk + FetchCycles(op))
      modifies this
      ensures Visible() == Exec(Decode(op), s, p1, hi)
    {
      hide Exec, Decode, Core.Visible;
      DecodedDLow();
      DecodedDHigh();
      match op {
        case 0xd0 => BranchIf(flagZ != 0, Z, false, p1, hi, s);
        case 0xd1 => ReadIndY(CMP, p1, hi, s);
        case 0xd3 => ModifyIndY(DCP, p1, hi, s);
        case 0xd4 => ReadZeroX(NOP, p1, hi, s);
        case 0xd5 => ReadZeroX(CMP, p1, hi, s);
        case 0xd6 => ModifyZeroX(DEC, p1, hi, s);
        case 0xd7 => ModifyZeroX(DCP, p1, hi, s);
        case 0xd8 => Implied(CLD, p1, hi, s);
        case 0xd9 => ReadAbsY(CMP, p1, p2, hi, s);
        case 0xda => Implied(NOPI, p1, hi, s);
        case 0xdb => ModifyAbsY(DCP, p1, p2, hi, s);
        case 0xdc => ReadAbsX(NOP, p1, p2, hi, s);
        case 0xdd => ReadAbsX(CMP, p1, p2, hi, s);
        case 0xde => ModifyAbsX(DEC, p1, p2, hi, s);
        case _ => ModifyAbsX(DCP, p1, p2, hi, s);
      }
    }

    method ExecuteE(op: Byte, p1: Byte, p2: Word, ghost hi: Byte, ghost s: Cpu)
      requires op / 16 == 14 && Decode(op) != JAM && p2 == P2(op, p1, hi)
      requires Visible() == s.(clk := s.clk + FetchCycles(op))
      modifies this
      ensures Visible() == Exec(Decode(op), s, p1, hi)
    {
      hide Exec, Decode, Core.Visible;
      DecodedELow();
      DecodedEHigh();
      match op {
        case 0xe0 => ReadImm(CPX, p1, hi, s);
        case 0xe1 => ReadIndX(SBC, p1, hi, s);
        case 0xe2 => ReadImm(NOP, p1, hi, s);
        case 0xe3 => ModifyIndX(ISB, p1, hi, s);
        case 0xe4 => ReadZero(CPX, p1, hi, s);
        case 0xe5 => ReadZero(SBC, p1, hi, s);
        case 0xe6 => ModifyZero(INC, p1, hi, s);
        case 0xe7 => ModifyZero(ISB, p1, hi, s);
        case 0xe8 => Implied(INX, p1, hi, s);
        case 0xe9 | 0xeb => ReadImm(SBC, p1, hi, s);
        case 0xea => Implied(NOPI, p1, hi, s);
        case 0xec => ReadAbs(CPX, p1, p2, hi, s);
        case 0xed => ReadAbs(SBC, p1, p2, hi, s);
        case 0xee => ModifyAbs(INC, p1, p2, hi, s);
        case _ => ModifyAbs(ISB, p1, p2, hi, s);
      }
    }

    method ExecuteF(op: Byte, p1: Byte, p2: Word, ghost hi: Byte, ghost s: Cpu)
      requires op / 16 == 15 && Decode(op) != JAM && p2 == P2(op, p1, hi)
      requires Visible() == s.(clk := s.clk + FetchCycles(op))
      modifies this
      ensures Visible() == Exec(Decode(op), s, p1, hi)
    {
      hide Exec, Decode, Core.Visible;
      DecodedFLow();
      DecodedFHigh();
      match op {
        case 0xf0 => BranchIf(flagZ == 0, Z, true, p1, hi, s);
        case 0xf1 => ReadIndY(SBC, p1, hi, s);
        case 0xf3 => ModifyIndY(ISB, p1, hi, s);
        case 0xf4 => ReadZeroX(NOP, p1, hi, s);
        case 0xf5 => ReadZeroX(SBC, p1, hi, s);
        case 0xf6 => ModifyZeroX(INC, p1, hi, s);
        case 0xf7 => ModifyZeroX(ISB, p1, hi, s);
        case 0xf8 => Implied(SED, p1, hi, s);
        case 0xf9 => ReadAbsY(SBC, p1, p2, hi, s);
        case 0xfa => Implied(NOPI, p1, hi, s);
        case 0xfb => ModifyAbsY(ISB, p1, p2, hi, s);
        case 0xfc => ReadAbsX(NOP, p1, p2, hi, s);
        case 0xfd => ReadAbsX(SBC, p1, p2, hi, s);
        case 0xfe => ModifyAbsX(INC, p1, p2, hi, s);
        case _ => ModifyAbsX(ISB, p1, p2, hi, s);
      }
    }

    /** FETCH_OPCODE: two bytes, and a third one for the opcodes of the fetch table. */
    method FetchOpcode() returns (op: Byte, p1: Byte, p2: Word, ghost hi: Byte)
      modifies `clk
      ensures op == Peek(mem, U16(pc)) && p1 == Peek(mem, U16(pc + 1)) && hi == Peek(mem, U16(pc + 2))
      ensures p2 == P2(op, p1, hi) && clk == old(clk) + FetchCycles(op)
    {
      hide U16, FetchTab;
      op := Load(pc);
      clk := clk + 1;
      p1 := Load(pc + 1);
      p2 := p1;
      clk := clk + 1;
      hi := Load(pc + 2);
      if FetchTab(op) {
        p2 := p1 + 0x100 * Load(pc + 2);
        clk := clk + 1;
      }
    }

    /** The switch. */
    method Execute(op: Byte, nmi: bool, p1: Byte, p2: Word, ghost hi: Byte, ghost s: Cpu)
      requires Decode(op) != JAM && p2 == P2(op, p1, hi)
      requires Visible() == s.(clk := s.clk + FetchCycles(op))
      modifies this
      ensures Visible() == Executed(op, nmi, s, p1, hi)
    {
      hide Exec, Decode, Core.Visible, P2, FetchCycles;
      match op / 16 {
        case 0 => Execute0(op, nmi, p1, p2, hi, s);
        case 1 => Execute1(op, p1, p2, hi, s);
        case 2 => Execute2(op, p1, p2, hi, s);
        case 3 => Execute3(op, p1, p2, hi, s);
        case 4 => Execute4(op, p1, p2, hi, s);
        case 5 => Execute5(op, p1, p2, hi, s);
        case 6 => Execute6(op, p1, p2, hi, s);
        case 7 => Execute7(op, p1, p2, hi, s);
        case 8 => Execute8(op, p1, p2, hi, s);
        case 9 => Execute9(op, p1, p2, hi, s);
        case 10 => ExecuteA(op, p1, p2, hi, s);
        case 11 => ExecuteB(op, p1, p2, hi, s);
        case 12 => ExecuteC(op, p1, p2, hi, s);
        case 13 => ExecuteD(op, p1, p2, hi, s);
        case 14 => ExecuteE(op, p1, p2, hi, s);
        case _ => ExecuteF(op, p1, p2, hi, s);
      }
    }

    /** One pass through the main loop when no interrupt is pending. */
    method Step(nmi: bool)
      requires !IsJam(Opcode(Visible()))
      modifies this
      ensures Visible() == Isa6510.Step(old(Visible()), nmi)
    {
      hide Executed, Decode, P2, FetchTab, U16, Core.Registers;
      ghost var s := Visible();
      Mod16(pc, 1);
      Mod16(pc, 2);
      var op, p1, p2, hi := FetchOpcode();
      JamDecoded(op);
      Execute(op, nmi, p1, p2, hi, s);
    }

    /** The main loop: instructions, and interrupts that are taken at their boundaries, until a JAM opcode. */
    method Run(events: seq<Event>)
      modifies this
      ensures Visible() == Isa6510.Run(old(Visible()), events)
    {
      hide Isa6510.Step, Decode, Trap, Core.Registers;
      ghost var s := Visible();
      var i := 0;
      while i < |events|
        invariant 0 <= i <= |events|
        invariant Isa6510.Run(s, events) == Isa6510.Run(Visible(), events[i..])
      {
        assert events[i..][1..] == events[i + 1..];
        match events[i] {
          case Instruction(nmi) =>
            if IsJam(Load(pc)) {
              return;
            }
            Step(nmi);
          case Irq(sei, nmi) => DoInterrupt(false, true, sei, nmi);
          case Nmi => DoInterrupt(true, false, false, true);
        }
        i := i + 1;
      }
    }
  }
}
