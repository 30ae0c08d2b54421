/** The 65816 as vice/src/65816core.c emulates it, on values: the instructions that move registers, push, pull, call,
    return, switch modes and copy blocks.  Addresses have 24 bits, the bank on top; memory is plain RAM.  Clock
    cycles are not counted. */
module Isa65816 {
  import opened Bits

  type Memory = map<int, Byte>

  /** The status register; in emulation mode bit 4, here x, is the break flag. */
  datatype Status = Status(n: bool, v: bool, m: bool, x: bool, d: bool, i: bool, z: bool, c: bool)

  datatype Cpu = Cpu(
    c: Word, x: Word, y: Word, sp: Word, dpr: Word, pbr: Byte, dbr: Byte, pc: Word, st: Status, emul: bool, mem: Memory)

  function Peek(mem: Memory, addr: int): Byte {
    if addr in mem then mem[addr] else 0
  }

  /** An operand byte: LOAD_PBR. */
  function Fetch(s: Cpu, pc: int): Byte {
    Peek(s.mem, pc + 0x10000 * s.pbr)
  }

  function IncPc(s: Cpu, n: int): Cpu {
    s.(pc := U16(s.pc + n))
  }

  /** Accumulator and index registers are eight bits wide. */
  predicate Narrow(s: Cpu) {
    s.emul || s.st.x
  }

  predicate NarrowA(s: Cpu) {
    s.emul || s.st.m
  }

  function SetNZ(st: Status, v: Word, bits8: bool): Status {
    if bits8 then st.(n := Bit7(v), z := v % 0x100 == 0) else st.(n := Bit7(Hi(v)), z := v == 0)
  }

  // ---- stack ----

  function Below(s: Cpu): Word {
    if s.emul then 0x100 + U8(s.sp - 1) else U16(s.sp - 1)
  }

  function Above(s: Cpu): Word {
    if s.emul then 0x100 + U8(s.sp + 1) else U16(s.sp + 1)
  }

  function Push(s: Cpu, v: Byte): Cpu {
    s.(mem := s.mem[s.sp := v], sp := Below(s))
  }

  /** A push that does not know about the emulation mode's page. */
  function RawPush(s: Cpu, v: Byte): Cpu {
    s.(mem := s.mem[s.sp := v], sp := U16(s.sp - 1))
  }

  function PushWord(s: Cpu, w: Word): Cpu {
    Push(Push(s, Hi(w)), Lo(w))
  }

  /** PEA, PEI, PER and PHD: only the second push wraps. */
  function PushWordRaw(s: Cpu, w: Word): Cpu {
    Push(RawPush(s, Hi(w)), Lo(w))
  }

  /** What pulling from the stack gives: the n-th byte above the stack pointer, with the wrap of the mode. */
  function PulledAt(s: Cpu, n: int): Byte {
    Peek(s.mem, if s.emul then 0x100 + U8(s.sp + n) else U16(s.sp + n))
  }

  function RawAt(s: Cpu, n: int): Byte {
    Peek(s.mem, U16(s.sp + n))
  }

  function StackUp(s: Cpu, n: int): Word {
    if s.emul then 0x100 + U8(s.sp + n) else U16(s.sp + n)
  }

  // ---- status ----

  function Packed(st: Status): Byte {
    ByteOf(st.n, st.v, st.m, st.x, st.d, st.i, st.z, st.c)
  }

  function Unpacked(v: Byte): Status {
    Status(Bit7(v), Bit6(v), Bit5(v), Bit4(v), Bit3(v), Bit2(v), Bit1(v), Bit0(v))
  }

  /** The high bytes of narrow index registers are zero. */
  function Truncated(s: Cpu): Cpu {
    if Narrow(s) then s.(x := Lo(s.x), y := Lo(s.y)) else s
  }

  /** The status byte as it is pushed: in emulation mode bit 5 reads as one. */
  function PushedStatus(s: Cpu): Byte {
    Packed(if s.emul then s.st.(m := true) else s.st)
  }

  function LoadStatus(s: Cpu, v: Byte): Cpu {
    Truncated(s.(st := Unpacked(v)))
  }

  // ---- calls and returns; the program counter is at the opcode ----

  function Jsr(s: Cpu): Cpu {
    var target := Pair(Fetch(s, U16(s.pc + 1)), Fetch(s, U16(s.pc + 2)));
    PushWord(s, U16(s.pc + 2)).(pc := target)
  }

  /** JSR (addr,X): the high byte of addr is fetched after the return address has been pushed. */
  function JsrIndexed(s: Cpu): Cpu {
    var t := PushWordRaw(s, U16(s.pc + 2));
    var ea := U16(Fetch(s, U16(s.pc + 1)) + 0x100 * Fetch(t, U16(s.pc + 2)) + s.x);
    t.(pc := Pair(Fetch(t, ea), Fetch(t, U16(ea + 1))))
  }

  /** JSL: the bank of the target is fetched after the old bank has been pushed. */
  function Jsl(s: Cpu): Cpu {
    var target := Pair(Fetch(s, U16(s.pc + 1)), Fetch(s, U16(s.pc + 2)));
    var t := RawPush(s, s.pbr);
    PushWordRaw(t.(pbr := Fetch(t, U16(s.pc + 3))), U16(s.pc + 3)).(pc := target)
  }

  function Rts(s: Cpu): Cpu {
    s.(pc := U16(Pair(PulledAt(s, 1), PulledAt(s, 2)) + 1), sp := StackUp(s, 2))
  }

  function Rtl(s: Cpu): Cpu {
    s.(pc := U16(Pair(RawAt(s, 1), RawAt(s, 2)) + 1), pbr := RawAt(s, 3), sp := StackUp(s, 3))
  }

  // ---- interrupts ----

  datatype Trap = Brk | Cop | Irq | Nmi

  function Vector(k: Trap, emul: bool): Word {
    match k
    case Brk => if emul then 0xfffe else 0xffe6
    case Cop => if emul then 0xfff4 else 0xffe4
    case Irq => if emul then 0xfffe else 0xffee
    case Nmi => if emul then 0xfffa else 0xffea
  }

  /** Where the handler returns to. */
  function ReturnPc(s: Cpu, k: Trap): Word {
    if k == Brk || k == Cop then U16(s.pc + 2) else s.pc
  }

  /** In emulation mode the break flag tells BRK and COP from interrupts, and the program bank is not saved. */
  function Enter(s: Cpu, k: Trap): Cpu {
    var b := if s.emul then s.(st := s.st.(x := k == Brk || k == Cop)) else Push(s, s.pbr);
    var t := Push(PushWord(b, ReturnPc(s, k)), PushedStatus(b));
    t.(st := t.st.(d := false, i := true), pbr := 0,
       pc := Pair(Peek(t.mem, Vector(k, s.emul)), Peek(t.mem, Vector(k, s.emul) + 1)))
  }

  /** In emulation mode RTI pulls three bytes, else four. */
  function Rti(s: Cpu): Cpu {
    var t := LoadStatus(s, PulledAt(s, 1));
    t.(pc := Pair(PulledAt(s, 2), PulledAt(s, 3)), pbr := if s.emul then s.pbr else PulledAt(s, 4),
       sp := StackUp(s, if s.emul then 3 else 4))
  }

  // ---- block moves ----

  /** One execution of MVN (step 1) or MVP (step -1): a byte is copied, and the program counter stays on the opcode
      until the count has run out. */
  function Move(s: Cpu, step: int): Cpu {
    // the last execution fetches with a program counter that wraps in its bank
    var dst := Fetch(s, if s.c == 0 then U16(s.pc + 1) else s.pc + 1);
    var src := Fetch(s, if s.c == 0 then U16(s.pc + 2) else s.pc + 2);
    var t := s.(mem := s.mem[s.y + 0x10000 * dst := Peek(s.mem, s.x + 0x10000 * src)], dbr := dst,
                x := U16(s.x + step), y := U16(s.y + step), c := U16(s.c - 1),
                pc := if s.c == 0 then U16(s.pc + 3) else s.pc);
    Truncated(t)
  }

  // ---- registers and modes ----

  /** XCE: entering the emulation mode truncates the registers, leaving it makes everything narrow. */
  function Xce(s: Cpu): Cpu {
    if s.st.c == s.emul then s
    else if s.st.c then
      s.(emul := true, st := s.st.(c := false, x := false), x := Lo(s.x), y := Lo(s.y), sp := 0x100 + Lo(s.sp))
    else s.(emul := false, st := s.st.(c := true, m := true, x := true))
  }

  /** The flags that mask names, set to on; in emulation mode the width flags cannot be changed. */
  function Masked(st: Status, emul: bool, mask: Byte, on: bool): Status {
    Status(
      if Bit7(mask) then on else st.n,
      if Bit6(mask) then on else st.v,
      if Bit5(mask) && !emul then on else st.m,
      if Bit4(mask) && !emul then on else st.x,
      if Bit3(mask) then on else st.d,
      if Bit2(mask) then on else st.i,
      if Bit1(mask) then on else st.z,
      if Bit0(mask) then on else st.c)
  }

  /** REP (on false) and SEP (on true). */
  function RepSep(s: Cpu, mask: Byte, on: bool): Cpu {
    var t := s.(st := Masked(s.st, s.emul, mask, on));
    if Bit4(mask) && !s.emul && on then t.(x := Lo(s.x), y := Lo(s.y)) else t
  }

  /** The reset sequence: emulation mode, bank 0, and three stack accesses that only move the pointer. */
  function ResetState(s: Cpu): Cpu {
    s.(emul := true, x := Lo(s.x), y := Lo(s.y), sp := 0x100 + U8(s.sp - 3), dpr := 0, dbr := 0, pbr := 0,
       st := s.st.(x := false, i := true, d := false),
       pc := Pair(Peek(s.mem, 0xfffc), Peek(s.mem, 0xfffd)))
  }

  datatype Index = X | Y

  function WithIndex(s: Cpu, r: Index, v: Word): Cpu {
    var w := if Narrow(s) then Lo(v) else v;
    var t := if r == X then s.(x := w) else s.(y := w);
    t.(st := SetNZ(s.st, w, Narrow(s)))
  }

  function IndexOf(s: Cpu, r: Index): Word {
    if r == X then s.x else s.y
  }

  function WithAccumulator(s: Cpu, v: Word): Cpu {
    if NarrowA(s) then s.(c := Pair(Lo(v), Hi(s.c)), st := SetNZ(s.st, v, true))
    else s.(c := v, st := SetNZ(s.st, v, false))
  }

  function WithStack(s: Cpu, v: Word): Cpu {
    s.(sp := if s.emul then 0x100 + Lo(v) else v)
  }

  /** The instructions by what they do to the registers; the program counter is left to the ones above. */
  datatype Instr =
    | LoadIndex(r: Index, value: Word) | CountIndex(r: Index, step: int)
    | Tax(r: Index) | Tsx | Txa(r: Index) | Txy | Tyx | Tcd | Tdc | Tcs | Tsc | Txs | Xba
    | Accumulate(value: Word) | Flags(st: Status)
    | PushIndex(r: Index) | PushA | PushByte(byte: Byte) | PushTwo(value: Word)
    | PullIndex(r: Index) | PullA | PullDbr | PullStatus | PullDirect
    | SetMode(mask: Byte, on: bool) | ExchangeCarry
    | Call | CallIndexed | CallLong | Return | ReturnLong | ReturnFromInterrupt
    | Interrupt(k: Trap) | BlockMove(step: int)
    | Store(addr: int, byte: Byte) | Jump(pbr: Byte, pc: Word) | Reset

  function PulledWord(s: Cpu): Word {
    Pair(PulledAt(s, 1), PulledAt(s, 2))
  }

  function PushWide(s: Cpu, w: Word, bits8: bool): Cpu {
    if bits8 then Push(s, Lo(w)) else PushWord(s, w)
  }

  function Pulled(s: Cpu, bits8: bool): Word {
    if bits8 then PulledAt(s, 1) else PulledWord(s)
  }

  function Shrunk(s: Cpu, bits8: bool): Cpu {
    s.(sp := StackUp(s, if bits8 then 1 else 2))
  }

  function Step(s: Cpu, i: Instr): Cpu {
    match i
    case LoadIndex(r, v) => WithIndex(s, r, v)
    case CountIndex(r, step) => WithIndex(s, r, U16(IndexOf(s, r) + step))
    case Tax(r) => WithIndex(s, r, s.c)
    case Tsx => WithIndex(s, X, s.sp)
    case Txa(r) => WithAccumulator(s, IndexOf(s, r))
    case Txy => s.(y := s.x, st := SetNZ(s.st, s.x, Narrow(s)))
    case Tyx => s.(x := s.y, st := SetNZ(s.st, s.y, Narrow(s)))
    case Tcd => s.(dpr := s.c, st := SetNZ(s.st, s.c, false))
    case Tdc => s.(c := s.dpr, st := SetNZ(s.st, s.dpr, false))
    case Tcs => WithStack(s, s.c)
    case Tsc => s.(c := s.sp, st := SetNZ(s.st, s.sp, false))
    case Txs => s.(sp := if s.emul && !Bit8(s.x) then s.x + 0x100 else s.x)
    case Xba => s.(c := Pair(Hi(s.c), Lo(s.c)))
    case Accumulate(v) => WithAccumulator(s, v)
    case Flags(st) => s.(st := st.(m := s.st.m, x := s.st.x))
    case PushIndex(r) => PushWide(s, IndexOf(s, r), Narrow(s))
    case PushA => PushWide(s, s.c, NarrowA(s))
    case PushByte(v) => Push(s, v)
    case PushTwo(w) => PushWordRaw(s, w)
    case PullIndex(r) => WithIndex(Shrunk(s, Narrow(s)), r, Pulled(s, Narrow(s)))
    case PullA => WithAccumulator(Shrunk(s, NarrowA(s)), Pulled(s, NarrowA(s)))
    case PullDbr => s.(sp := Above(s), dbr := PulledAt(s, 1), st := SetNZ(s.st, PulledAt(s, 1), true))
    case PullStatus => LoadStatus(s.(sp := Above(s)), PulledAt(s, 1))
    case PullDirect =>
      var w := Pair(RawAt(s, 1), RawAt(s, 2));
      s.(sp := StackUp(s, 2), dpr := w, st := SetNZ(s.st, w, false))
    case SetMode(mask, on) => RepSep(s, mask, on)
    case ExchangeCarry => Xce(s)
    case Call => Jsr(s)
    case CallIndexed => JsrIndexed(s)
    case CallLong => Jsl(s)
    case Return => Rts(s)
    case ReturnLong => Rtl(s)
    case ReturnFromInterrupt => Rti(s)
    case Interrupt(k) => Enter(s, k)
    case BlockMove(step) => Move(s, step)
    case Store(addr, v) => s.(mem := s.mem[addr := v])
    case Jump(pbr, pc) => s.(pbr := pbr, pc := pc)
    case Reset => ResetState(s)
  }
}
