/** The 6510 as a programmer sees it: an instruction set reference that neither emulator core is written from.
    Opcodes are decoded from their bit fields, the flags are booleans, the program counter has 16 bits and
    every instruction costs its published number of cycles.  Memory is plain RAM; an absent address holds 0. */
module Isa6510 {
  import opened Bits

  type Memory = map<int, Byte>

  datatype Status = Status(n: bool, v: bool, b: bool, d: bool, i: bool, z: bool, c: bool)

  datatype Regs = Regs(a: Byte, x: Byte, y: Byte, sp: Byte, st: Status)

  datatype Cpu = Cpu(pc: Word, r: Regs, mem: Memory, clk: int)

  datatype Mode =
    Immediate | Zero | ZeroX | ZeroY | Absolute | AbsoluteX | AbsoluteY | IndirectX | IndirectY

  datatype ReadOp =
    ORA | AND | EOR | ADC | LDA | CMP | SBC | LDX | LDY | CPX | CPY | BIT | NOP
    | LAX | LAS | ANC | ASR | ARR | ANE | LXA | SBX

  datatype ModifyOp = ASL | ROL | LSR | ROR | DEC | INC | SLO | RLA | SRE | RRA | DCP | ISB

  datatype WriteOp = STA | STX | STY | SAX

  /** Stores whose value is masked with the high address byte plus one. */
  datatype UnstableOp = SHA | SHX | SHY | SHS

  datatype ImpliedOp =
    TAX | TAY | TXA | TYA | TSX | TXS | DEX | DEY | INX | INY
    | CLC | SEC | CLI | SEI | CLV | CLD | SED | NOPI | PHA | PHP | PLA | PLP

  datatype Flag = N | V | C | Z

  datatype Instr =
    | Read(r: ReadOp, rmode: Mode)
    | Modify(m: ModifyOp, mmode: Mode)
    | Accumulator(acc: ModifyOp)
    | Write(w: WriteOp, wmode: Mode)
    | Unstable(u: UnstableOp, umode: Mode)
    | Implied(i: ImpliedOp)
    | Branch(flag: Flag, taken: bool)
    | BRK | JSR | RTI | RTS | JMP | JMPI | JAM

  // ---- memory and status ----

  function Peek(mem: Memory, addr: int): Byte {
    if addr in mem then mem[addr] else 0
  }

  function ZeroWord(mem: Memory, zp: int): Word {
    Pair(Peek(mem, U8(zp)), Peek(mem, U8(zp + 1)))
  }

  function AbsWord(mem: Memory, addr: int): Word {
    Pair(Peek(mem, U16(addr)), Peek(mem, U16(addr + 1)))
  }

  /** s with one byte more on the stack. */
  function Push(s: Cpu, v: Byte): Cpu {
    s.(mem := s.mem[0x100 + s.r.sp := v], r := s.r.(sp := U8(s.r.sp - 1)))
  }

  /** The n-th byte that successive pulls return; the stack pointer moves up before a byte is read. */
  function Pulled(s: Cpu, n: int): Byte {
    Peek(s.mem, 0x100 + U8(s.r.sp + n))
  }

  /** The status byte on the stack: N V 1 B D I Z C. */
  function Packed(st: Status): Byte {
    ByteOf(st.n, st.v, true, st.b, st.d, st.i, st.z, st.c)
  }

  function Unpacked(v: Byte): Status {
    Status(Bit7(v), Bit6(v), Bit4(v), Bit3(v), Bit2(v), Bit1(v), Bit0(v))
  }

  function SetNZ(st: Status, v: Byte): Status {
    st.(n := Bit7(v), z := v == 0)
  }

  // ---- decoding ----

  function Mode01(bbb: int): Mode {
    if bbb == 0 then IndirectX else if bbb == 1 then Zero else if bbb == 2 then Immediate
    else if bbb == 3 then Absolute else if bbb == 4 then IndirectY else if bbb == 5 then ZeroX
    else if bbb == 6 then AbsoluteY else AbsoluteX
  }

  function Decode01(aaa: int, mode: Mode): Instr {
    if aaa == 0 then Read(ORA, mode)
    else if aaa == 1 then Read(AND, mode)
    else if aaa == 2 then Read(EOR, mode)
    else if aaa == 3 then Read(ADC, mode)
    else if aaa == 4 then (if mode == Immediate then Read(NOP, mode) else Write(STA, mode))
    else if aaa == 5 then Read(LDA, mode)
    else if aaa == 6 then Read(CMP, mode)
    else Read(SBC, mode)
  }

  function Shift10(aaa: int): ModifyOp {
    if aaa == 0 then ASL else if aaa == 1 then ROL else if aaa == 2 then LSR else if aaa == 3 then ROR
    else if aaa == 6 then DEC else INC
  }

  function Decode10(aaa: int, bbb: int): Instr {
    if bbb == 0 then
      (if aaa == 5 then Read(LDX, Immediate)
       else if aaa == 4 || aaa == 6 || aaa == 7 then Read(NOP, Immediate) else JAM)
    else if bbb == 4 then JAM
    else if bbb == 2 then
      (if aaa == 4 then Implied(TXA) else if aaa == 5 then Implied(TAX)
       else if aaa == 6 then Implied(DEX) else if aaa == 7 then Implied(NOPI)
       else Accumulator(Shift10(aaa)))
    else if bbb == 6 then
      (if aaa == 4 then Implied(TXS) else if aaa == 5 then Implied(TSX) else Implied(NOPI))
    else if aaa == 4 then
      (if bbb == 1 then Write(STX, Zero) else if bbb == 3 then Write(STX, Absolute)
       else if bbb == 5 then Write(STX, ZeroY) else Unstable(SHX, AbsoluteY))
    else if aaa == 5 then
      Read(LDX, if bbb == 1 then Zero else if bbb == 3 then Absolute else if bbb == 5 then ZeroY else AbsoluteY)
    else
      Modify(Shift10(aaa), Mode01(bbb))
  }

  function Immediate11(aaa: int): ReadOp {
    if aaa == 0 || aaa == 1 then ANC else if aaa == 2 then ASR else if aaa == 3 then ARR
    else if aaa == 4 then ANE else if aaa == 5 then LXA else if aaa == 6 then SBX else SBC
  }

  function Combined11(aaa: int): ModifyOp {
    if aaa == 0 then SLO else if aaa == 1 then RLA else if aaa == 2 then SRE else if aaa == 3 then RRA
    else if aaa == 6 then DCP else ISB
  }

  function Decode11(aaa: int, bbb: int): Instr {
    if bbb == 2 then Read(Immediate11(aaa), Immediate)
    else if aaa == 4 then
      (if bbb == 4 then Unstable(SHA, IndirectY) else if bbb == 6 then Unstable(SHS, AbsoluteY)
       else if bbb == 7 then Unstable(SHA, AbsoluteY)
       else Write(SAX, if bbb == 5 then ZeroY else Mode01(bbb)))
    else if aaa == 5 then
      (if bbb == 6 then Read(LAS, AbsoluteY)
       else Read(LAX, if bbb == 5 then ZeroY else if bbb == 7 then AbsoluteY else Mode01(bbb)))
    else Modify(Combined11(aaa), Mode01(bbb))
  }

  function Control00(aaa: int): Instr {
    if aaa == 0 then BRK else if aaa == 1 then JSR else if aaa == 2 then RTI else if aaa == 3 then RTS
    else if aaa == 4 then Read(NOP, Immediate) else if aaa == 5 then Read(LDY, Immediate)
    else if aaa == 6 then Read(CPY, Immediate) else Read(CPX, Immediate)
  }

  function Stack00(aaa: int): ImpliedOp {
    if aaa == 0 then PHP else if aaa == 1 then PLP else if aaa == 2 then PHA else if aaa == 3 then PLA
    else if aaa == 4 then DEY else if aaa == 5 then TAY else if aaa == 6 then INY else INX
  }

  function Flags00(aaa: int): ImpliedOp {
    if aaa == 0 then CLC else if aaa == 1 then SEC else if aaa == 2 then CLI else if aaa == 3 then SEI
    else if aaa == 4 then TYA else if aaa == 5 then CLV else if aaa == 6 then CLD else SED
  }

  function BranchFlag(aaa: int): Flag {
    if aaa / 2 == 0 then N else if aaa / 2 == 1 then V else if aaa / 2 == 2 then C else Z
  }

  function Memory00(aaa: int, mode: Mode): Instr {
    if aaa == 4 then (if mode == AbsoluteX then Unstable(SHY, mode) else Write(STY, mode))
    else if aaa == 5 then Read(LDY, mode)
    else if mode == ZeroX || mode == AbsoluteX then Read(NOP, mode)
    else if aaa == 0 then Read(NOP, mode)
    else if aaa == 1 then Read(BIT, mode)
    else if aaa == 6 then Read(CPY, mode)
    else if aaa == 7 then Read(CPX, mode)
    else if mode == Zero then Read(NOP, mode)
    else if aaa == 2 then JMP
    else JMPI
  }

  function Decode00(aaa: int, bbb: int): Instr {
    if bbb == 0 then Control00(aaa)
    else if bbb == 2 then Implied(Stack00(aaa))
    else if bbb == 4 then Branch(BranchFlag(aaa), aaa % 2 == 1)
    else if bbb == 6 then Implied(Flags00(aaa))
    else Memory00(aaa, Mode01(bbb))
  }

  /** An opcode is aaabbbcc: cc picks the block, aaa the operation and bbb the addressing mode. */
  function Decode(op: Byte): Instr {
    var aaa, bbb, cc := op / 0x20, op / 4 % 8, op % 4;
    if cc == 0 then Decode00(aaa, bbb)
    else if cc == 1 then Decode01(aaa, Mode01(bbb))
    else if cc == 2 then Decode10(aaa, bbb)
    else Decode11(aaa, bbb)
  }

  // ---- addressing ----

  /** The address an indexed mode starts from. */
  function Base(mode: Mode, s: Cpu, lo: Byte, hi: Byte): Word {
    if mode == IndirectY then ZeroWord(s.mem, lo) else Pair(lo, hi)
  }

  function Ea(mode: Mode, s: Cpu, lo: Byte, hi: Byte): Word {
    match mode
    case Immediate => 0
    case Zero => lo
    case ZeroX => U8(lo + s.r.x)
    case ZeroY => U8(lo + s.r.y)
    case Absolute => Pair(lo, hi)
    case AbsoluteX => U16(Pair(lo, hi) + s.r.x)
    case AbsoluteY => U16(Pair(lo, hi) + s.r.y)
    case IndirectX => ZeroWord(s.mem, lo + s.r.x)
    case IndirectY => U16(ZeroWord(s.mem, lo) + s.r.y)
  }

  /** Indexing leaves the page of the base address. */
  predicate Crosses(mode: Mode, s: Cpu, lo: Byte, hi: Byte) {
    match mode
    case AbsoluteX => Lo(Pair(lo, hi)) + s.r.x > 0xff
    case AbsoluteY => Lo(Pair(lo, hi)) + s.r.y > 0xff
    case IndirectY => Lo(ZeroWord(s.mem, lo)) + s.r.y > 0xff
    case _ => false
  }

  function Operand(mode: Mode, s: Cpu, lo: Byte, hi: Byte): Byte {
    if mode == Immediate then lo else Peek(s.mem, Ea(mode, s, lo, hi))
  }

  function Length(mode: Mode): int {
    if mode == Absolute || mode == AbsoluteX || mode == AbsoluteY then 3 else 2
  }

  function WriteCycles(mode: Mode): int {
    match mode
    case Immediate => 2
    case Zero => 3
    case ZeroX => 4
    case ZeroY => 4
    case Absolute => 4
    case AbsoluteX => 5
    case AbsoluteY => 5
    case IndirectX => 6
    case IndirectY => 6
  }

  /** Reads save the cycle that fixes the high address byte when there is nothing to fix. */
  function ReadCycles(mode: Mode, crosses: bool): int {
    if (mode == AbsoluteX || mode == AbsoluteY || mode == IndirectY) && !crosses then WriteCycles(mode) - 1
    else WriteCycles(mode)
  }

  // ---- operations ----

  /** Decimal addition works digit by digit; N and V come from the sum before the high digit is corrected,
      Z from the binary sum. */
  function AddDecimal(a: Byte, v: Byte, st: Status): (r: (Byte, Status)) {
    var lo := DigitCorrected(a % 16 + v % 16 + Num(st.c));
    var hi := a / 16 + v / 16 + Num(lo > 15);
    (U8(16 * DigitCorrected(hi) + lo % 16),
     st.(z := (a + v + Num(st.c)) % 0x100 == 0, n := hi % 16 >= 8, c := DigitCorrected(hi) > 15,
         v := Bit7(a) == Bit7(v) && Bit7(a) != (hi % 16 >= 8)))
  }

  function DigitCorrected(digit: int): int {
    if digit > 9 then digit + 6 else digit
  }

  function AddBinary(a: Byte, v: Byte, st: Status): (r: (Byte, Status)) {
    var sum := a + v + Num(st.c);
    (U8(sum), SetNZ(st, U8(sum)).(c := sum > 0xff,
                                  v := Bit7(a) == Bit7(v) && Bit7(a) != Bit7(sum)))
  }

  function Add(a: Byte, v: Byte, st: Status): (r: (Byte, Status)) {
    if st.d then AddDecimal(a, v, st) else AddBinary(a, v, st)
  }

  function SubtractDecimal(a: Byte, v: Byte, c: bool): Byte {
    var lo := a % 16 - v % 16 - Num(!c);
    var hi := a / 16 - v / 16 - Num(lo < 0);
    U8(16 * (if hi < 0 then hi - 6 else hi) + (if lo < 0 then lo - 6 else lo) % 16)
  }

  /** All four flags of a subtraction are those of the binary difference, in both modes. */
  function SubtractStatus(a: Byte, v: Byte, st: Status): Status {
    var diff := a - v - Num(!st.c);
    SetNZ(st, U8(diff)).(c := diff >= 0, v := Bit7(a) != Bit7(v) && Bit7(a) != Bit7(diff))
  }

  function Subtract(a: Byte, v: Byte, st: Status): (r: (Byte, Status)) {
    (if st.d then SubtractDecimal(a, v, st.c) else U8(a - v - Num(!st.c)), SubtractStatus(a, v, st))
  }

  function Compare(s: Regs, reg: Byte, v: Byte): Regs {
    s.(st := SetNZ(s.st, U8(reg - v)).(c := reg >= v))
  }

  function SetA(s: Regs, v: Byte): Regs {
    s.(a := v, st := SetNZ(s.st, v))
  }

  /** Rotate right after an AND; V and C come from the result, in decimal mode from a fix-up of the two nibbles. */
  function RotateAnded(t: Byte, st: Status): (r: (Byte, Status)) {
    var r := t / 2 + 128 * Num(st.c);
    if !st.d then
      (r, SetNZ(st, r).(c := Bit6(r), v := Bit6(r) != Bit5(r)))
    else
      var lo := if t % 16 + t % 2 > 5 then (r + 6) % 16 else r % 16;
      var high := t / 16 + t / 16 % 2 > 5;
      var hi := if high then (r / 16 + 6) % 16 else r / 16;
      (16 * hi + lo, SetNZ(st, r).(c := high, v := Bit6(r) != Bit6(t)))
  }

  function WithA(s: Regs, r: (Byte, Status)): Regs {
    s.(a := r.0, st := r.1)
  }

  function ReadEffect(op: ReadOp, s: Regs, v: Byte): Regs {
    match op
    case ORA => SetA(s, Or(s.a, v))
    case AND => SetA(s, And(s.a, v))
    case EOR => SetA(s, Xor(s.a, v))
    case ADC => WithA(s, Add(s.a, v, s.st))
    case SBC => WithA(s, Subtract(s.a, v, s.st))
    case LDA => SetA(s, v)
    case LDX => s.(x := v, st := SetNZ(s.st, v))
    case LDY => s.(y := v, st := SetNZ(s.st, v))
    case CMP => Compare(s, s.a, v)
    case CPX => Compare(s, s.x, v)
    case CPY => Compare(s, s.y, v)
    case BIT => s.(st := s.st.(n := Bit7(v), v := Bit6(v), z := And(v, s.a) == 0))
    case NOP => s
    case LAX => SetA(s, v).(x := v)
    case LAS => var r := And(s.sp, v); SetA(s, r).(x := r, sp := r)
    case ANC => var r := And(s.a, v); s.(a := r, st := SetNZ(s.st, r).(c := Bit7(r)))
    case ASR => var r := And(s.a, v); s.(a := r / 2, st := SetNZ(s.st, r / 2).(c := Bit0(r)))
    case ARR => WithA(s, RotateAnded(And(s.a, v), s.st))
    case ANE => SetA(s, And(s.x, v))
    case LXA => var r := And(Or(s.a, 0xee), v); SetA(s, r).(x := r)
    case SBX => var r := And(s.a, s.x); Compare(s, r, v).(x := U8(r - v))
  }

  /** The byte a read-modify-write operation writes back. */
  function Shifted(op: ModifyOp, v: Byte, c: bool): Byte {
    match op
    case ASL => U8(2 * v)
    case SLO => U8(2 * v)
    case ROL => U8(2 * v + Num(c))
    case RLA => U8(2 * v + Num(c))
    case LSR => v / 2
    case SRE => v / 2
    case ROR => v / 2 + 128 * Num(c)
    case RRA => v / 2 + 128 * Num(c)
    case DEC => U8(v - 1)
    case DCP => U8(v - 1)
    case INC => U8(v + 1)
    case ISB => U8(v + 1)
  }

  function ShiftedOut(op: ModifyOp, v: Byte, c: bool): bool {
    match op
    case ASL => Bit7(v)
    case SLO => Bit7(v)
    case ROL => Bit7(v)
    case RLA => Bit7(v)
    case LSR => Bit0(v)
    case SRE => Bit0(v)
    case ROR => Bit0(v)
    case RRA => Bit0(v)
    case _ => c
  }

  function ModifyEffect(op: ModifyOp, s: Regs, v: Byte): Regs {
    var r := Shifted(op, v, s.st.c);
    var t := s.(st := s.st.(c := ShiftedOut(op, v, s.st.c)));
    match op
    case SLO => SetA(t, Or(t.a, r))
    case RLA => SetA(t, And(t.a, r))
    case SRE => SetA(t, Xor(t.a, r))
    case RRA => WithA(t, Add(t.a, r, t.st))
    case DCP => Compare(t, t.a, r)
    case ISB => WithA(t, Subtract(t.a, r, t.st))
    case _ => t.(st := SetNZ(t.st, r))
  }

  /** ASL A and its kind: the accumulator is the byte. */
  function AccumulatorEffect(op: ModifyOp, s: Regs): Regs {
    ModifyEffect(op, s, s.a).(a := Shifted(op, s.a, s.st.c))
  }

  /** A read-modify-write of the byte at ea. */
  function Modified(op: ModifyOp, s: Cpu, ea: Word): Cpu {
    var v := Peek(s.mem, ea);
    s.(r := ModifyEffect(op, s.r, v), mem := s.mem[ea := Shifted(op, v, s.r.st.c)])
  }

  function Stored(op: WriteOp, s: Regs): Byte {
    match op
    case STA => s.a
    case STX => s.x
    case STY => s.y
    case SAX => And(s.a, s.x)
  }

  function UnstableSource(op: UnstableOp, s: Regs): Byte {
    match op
    case SHA => And(s.a, s.x)
    case SHS => And(s.a, s.x)
    case SHX => s.x
    case SHY => s.y
  }

  function UnstableValue(op: UnstableOp, s: Regs, baseHi: Byte): Byte {
    And(UnstableSource(op, s), U8(baseHi + 1))
  }

  /** When indexing crosses a page the masked value also becomes the high byte of the address. */
  function UnstableEa(op: UnstableOp, mode: Mode, s: Cpu, lo: Byte, hi: Byte): Word {
    var ea := Ea(mode, s, lo, hi);
    if Crosses(mode, s, lo, hi) then Pair(Lo(ea), UnstableValue(op, s.r, Hi(Base(mode, s, lo, hi)))) else ea
  }

  /** The implied instructions that touch registers only. */
  function TransferEffect(op: ImpliedOp, s: Regs): Regs {
    match op
    case TAX => s.(x := s.a, st := SetNZ(s.st, s.a))
    case TAY => s.(y := s.a, st := SetNZ(s.st, s.a))
    case TXA => SetA(s, s.x)
    case TYA => SetA(s, s.y)
    case TSX => s.(x := s.sp, st := SetNZ(s.st, s.sp))
    case TXS => s.(sp := s.x)
    case DEX => s.(x := U8(s.x - 1), st := SetNZ(s.st, U8(s.x - 1)))
    case DEY => s.(y := U8(s.y - 1), st := SetNZ(s.st, U8(s.y - 1)))
    case INX => s.(x := U8(s.x + 1), st := SetNZ(s.st, U8(s.x + 1)))
    case INY => s.(y := U8(s.y + 1), st := SetNZ(s.st, U8(s.y + 1)))
    case CLC => s.(st := s.st.(c := false))
    case SEC => s.(st := s.st.(c := true))
    case CLI => s.(st := s.st.(i := false))
    case SEI => s.(st := s.st.(i := true))
    case CLV => s.(st := s.st.(v := false))
    case CLD => s.(st := s.st.(d := false))
    case SED => s.(st := s.st.(d := true))
    case _ => s
  }

  function ImpliedEffect(op: ImpliedOp, s: Cpu): Cpu {
    match op
    case PHA => Push(s, s.r.a)
    case PHP => Push(s, Packed(s.r.st.(b := true)))
    case PLA => s.(r := SetA(s.r, Pulled(s, 1)).(sp := U8(s.r.sp + 1)))
    case PLP => s.(r := s.r.(st := Unpacked(Pulled(s, 1)), sp := U8(s.r.sp + 1)))
    case _ => s.(r := TransferEffect(op, s.r))
  }

  function ImpliedCycles(op: ImpliedOp): int {
    if op == PHA || op == PHP then 3 else if op == PLA || op == PLP then 4 else 2
  }

  // ---- control flow ----

  function PushWord(s: Cpu, w: Word): Cpu {
    Push(Push(s, Hi(w)), Lo(w))
  }

  /** Save the return address and the status, mask interrupts and go through a vector. */
  function Enter(s: Cpu, ret: Word, vector: Word): Cpu {
    var t := Push(PushWord(s, ret), Packed(s.r.st));
    t.(r := t.r.(st := s.r.st.(i := true)), pc := AbsWord(t.mem, vector))
  }

  function Trap(s: Cpu, ret: Word, brk: bool, vector: Word): Cpu {
    Enter(s.(r := s.r.(st := s.r.st.(b := brk)), clk := s.clk + 7), ret, vector)
  }

  function FlagOf(st: Status, flag: Flag): bool {
    match flag
    case N => st.n
    case V => st.v
    case C => st.c
    case Z => st.z
  }

  function Relative(pc: Word, offset: Byte): Word {
    U16(if Bit7(offset) then pc + offset - 0x100 else pc + offset)
  }

  function BranchEffect(s: Cpu, flag: Flag, taken: bool, lo: Byte): Cpu {
    var next := U16(s.pc + 2);
    var dest := Relative(next, lo);
    if FlagOf(s.r.st, flag) != taken then s.(pc := next, clk := s.clk + 2)
    else s.(pc := dest, clk := s.clk + (if Hi(next) == Hi(dest) then 3 else 4))
  }

  /** The high byte of the target is fetched after the return address has been pushed. */
  function CallEffect(s: Cpu, lo: Byte): Cpu {
    var ret := U16(s.pc + 2);
    var t := PushWord(s, ret);
    t.(pc := Pair(lo, Peek(t.mem, ret)), clk := s.clk + 6)
  }

  function ReturnEffect(s: Cpu): Cpu {
    s.(pc := U16(Pair(Pulled(s, 1), Pulled(s, 2)) + 1), r := s.r.(sp := U8(s.r.sp + 2)), clk := s.clk + 6)
  }

  function ReturnFromInterruptEffect(s: Cpu): Cpu {
    s.(pc := Pair(Pulled(s, 2), Pulled(s, 3)), r := s.r.(st := Unpacked(Pulled(s, 1)), sp := U8(s.r.sp + 3)),
       clk := s.clk + 6)
  }

  function Advance(s: Cpu, len: int, cycles: int): Cpu {
    s.(pc := U16(s.pc + len), clk := s.clk + cycles)
  }

  /** When another chip steals the cycle before the store, the value is not masked. */
  function UnstableStore(op: UnstableOp, mode: Mode, s: Cpu, lo: Byte, hi: Byte, stolen: bool): Cpu {
    s.(mem := s.mem[UnstableEa(op, mode, s, lo, hi) :=
                    if stolen then UnstableSource(op, s.r) else UnstableValue(op, s.r, Hi(Base(mode, s, lo, hi)))],
       r := if op == SHS then s.r.(sp := And(s.r.a, s.r.x)) else s.r)
  }

  function Exec(i: Instr, s: Cpu, lo: Byte, hi: Byte): Cpu {
    match i
    case Read(op, mode) =>
      Advance(s.(r := ReadEffect(op, s.r, Operand(mode, s, lo, hi))), Length(mode),
              ReadCycles(mode, Crosses(mode, s, lo, hi)))
    case Modify(op, mode) =>
      Advance(Modified(op, s, Ea(mode, s, lo, hi)), Length(mode), WriteCycles(mode) + 2)
    case Accumulator(op) =>
      Advance(s.(r := AccumulatorEffect(op, s.r)), 1, 2)
    case Write(op, mode) =>
      Advance(s.(mem := s.mem[Ea(mode, s, lo, hi) := Stored(op, s.r)]), Length(mode), WriteCycles(mode))
    case Unstable(op, mode) => Advance(UnstableStore(op, mode, s, lo, hi, false), Length(mode), WriteCycles(mode))
    case Implied(op) => Advance(ImpliedEffect(op, s), 1, ImpliedCycles(op))
    case Branch(flag, taken) => BranchEffect(s, flag, taken, lo)
    case BRK => Trap(s, U16(s.pc + 2), true, 0xfffe)
    case JSR => CallEffect(s, lo)
    case RTI => ReturnFromInterruptEffect(s)
    case RTS => ReturnEffect(s)
    case JMP => s.(pc := Pair(lo, hi), clk := s.clk + 3)
    case JMPI =>
      // the pointer's low byte wraps inside its page
      s.(pc := Pair(Peek(s.mem, Pair(lo, hi)), Peek(s.mem, Pair(U8(lo + 1), hi))), clk := s.clk + 5)
    case JAM => s
  }

  /** The opcodes that stop the processor. */
  predicate IsJam(op: Byte) {
    op % 0x20 == 0x12 || (op % 0x20 == 2 && op < 0x80)
  }

  function Opcode(s: Cpu): Byte {
    Peek(s.mem, s.pc)
  }

  /** An opcode; an NMI that arrives in time takes over the sequence of a BRK. */
  function Executed(op: Byte, nmi: bool, s: Cpu, lo: Byte, hi: Byte): Cpu {
    if nmi && op == 0x00 then Trap(s, U16(s.pc + 2), true, 0xfffa) else Exec(Decode(op), s, lo, hi)
  }

  function Step(s: Cpu, nmi: bool): Cpu {
    Executed(Opcode(s), nmi, s, Peek(s.mem, U16(s.pc + 1)), Peek(s.mem, U16(s.pc + 2)))
  }

  /** What happens at an instruction boundary: the next instruction, or an interrupt whose delay has passed.  The I flag
      masks an IRQ, but not yet when the last instruction was a SEI; nmi says that an NMI arrives in time to take over
      the sequence of a BRK or an IRQ. */
  datatype Event = Instruction(nmi: bool) | Irq(sei: bool, nmi: bool) | Nmi

  predicate Masked(st: Status, sei: bool) {
    st.i && !sei
  }

  function IrqVector(nmi: bool): Word {
    if nmi then 0xfffa else 0xfffe
  }

  function Happen(e: Event, s: Cpu): Cpu {
    match e
    case Instruction(nmi) => Step(s, nmi)
    case Irq(sei, nmi) => if Masked(s.r.st, sei) then s else Trap(s, s.pc, false, IrqVector(nmi))
    case Nmi => Trap(s, s.pc, false, 0xfffa)
  }

  predicate Jams(e: Event, s: Cpu) {
    e.Instruction? && IsJam(Opcode(s))
  }

  /** A run; a JAM opcode halts the processor for good. */
  function Run(s: Cpu, events: seq<Event>): Cpu
    decreases |events|
  {
    if events == [] || Jams(events[0], s) then s
    else Run(Happen(events[0], s), events[1..])
  }
}
