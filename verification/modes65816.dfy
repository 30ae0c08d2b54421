/** Register widths, calls and interrupts of the 65816, in every mode. */
module Modes65816 {
  import opened Bits
  import opened Isa65816

  // ---- the width invariant ----

  /** Emulation mode keeps the stack in page one; narrow index registers have no high byte. */
  predicate Widths(s: Cpu) {
    (s.emul ==> 0x100 <= s.sp <= 0x1ff) && (Narrow(s) ==> s.x <= 0xff && s.y <= 0xff)
  }

  predicate MovesRegisters(i: Instr) {
    i.LoadIndex? || i.CountIndex? || i.Tax? || i.Tsx? || i.Txa? || i.Txy? || i.Tyx? || i.Tcd? || i.Tdc? || i.Tcs? || i.Tsc?
    || i.Txs? || i.Xba? || i.Accumulate? || i.Flags?
  }

  predicate UsesStack(i: Instr) {
    i.PushIndex? || i.PushA? || i.PushByte? || i.PushTwo? || i.PullIndex? || i.PullA? || i.PullDbr? || i.PullStatus?
    || i.PullDirect?
  }

  lemma MoveWidths(s: Cpu, i: Instr)
    requires Widths(s) && MovesRegisters(i)
    ensures Widths(Step(s, i))
  {
  }

  lemma StackWidths(s: Cpu, i: Instr)
    requires Widths(s) && UsesStack(i)
    ensures Widths(Step(s, i))
  {
  }

  lemma CallWidths(s: Cpu)
    requires Widths(s)
    ensures Widths(Jsr(s)) && Widths(JsrIndexed(s)) && Widths(Jsl(s)) && Widths(Rts(s)) && Widths(Rtl(s))
  {
  }

  lemma TrapWidths(s: Cpu, k: Trap)
    requires Widths(s)
    ensures Widths(Enter(s, k)) && Widths(Rti(s))
  {
  }

  lemma ModeWidths(s: Cpu, mask: Byte, on: bool, step: int)
    requires Widths(s)
    ensures Widths(RepSep(s, mask, on)) && Widths(Xce(s)) && Widths(Move(s, step))
  {
  }

  /** Every instruction keeps the widths, also those that step the stack pointer out of its page midway. */
  lemma StepWidths(s: Cpu, i: Instr)
    requires Widths(s)
    ensures Widths(Step(s, i))
  {
    hide Jsr, JsrIndexed, Jsl, Rts, Rtl, Enter, Rti, RepSep, Xce, Move;
    if MovesRegisters(i) {
      MoveWidths(s, i);
    } else if UsesStack(i) {
      StackWidths(s, i);
    } else if i.Interrupt? {
      TrapWidths(s, i.k);
    } else {
      CallWidths(s);
      TrapWidths(s, Irq);
      ModeWidths(s, if i.SetMode? then i.mask else 0, i.SetMode? && i.on, if i.BlockMove? then i.step else 0);
    }
  }

  function Run(s: Cpu, prog: seq<Instr>): Cpu
    decreases |prog|
  {
    if prog == [] then s else Run(Step(s, prog[0]), prog[1..])
  }

  /** From a reset on, whatever is executed. */
  lemma {:induction false} RunWidths(s: Cpu, prog: seq<Instr>)
    requires Widths(s) || (prog != [] && prog[0] == Reset)
    ensures Widths(Run(s, prog))
    decreases |prog|
  {
    hide Step;
    if prog != [] {
      if prog[0] == Reset {
        ResetWidths(s);
      } else {
        StepWidths(s, prog[0]);
      }
      RunWidths(Step(s, prog[0]), prog[1..]);
    }
  }

  lemma ResetWidths(s: Cpu)
    ensures Widths(Step(s, Reset))
  {
  }

  // ---- modes ----

  /** XCE exchanges the carry and the emulation flag, and two of them restore both; from the emulation mode nothing
      but the width flags is changed on the way. */
  lemma XceExchanges(s: Cpu)
    ensures Xce(s).emul == s.st.c && Xce(s).st.c == s.emul
    ensures var t := Xce(Xce(s));
            t.emul == s.emul && t.st.c == s.st.c
            && (Widths(s) && s.emul ==> t == s.(st := s.st.(m := t.st.m, x := t.st.x)))
  {
  }

  // ---- calls ----

  datatype Kind = Plain | Indexed | Long

  function CallOf(k: Kind, s: Cpu): Cpu {
    match k
    case Plain => Jsr(s)
    case Indexed => JsrIndexed(s)
    case Long => Jsl(s)
  }

  function ReturnOf(k: Kind, s: Cpu): Cpu {
    if k == Long then Rtl(s) else Rts(s)
  }

  function Bytes(k: Kind): int {
    if k == Long then 3 else 2
  }

  /** The n-th byte above the new stack pointer that the call wrote: the pushes go down from the old one, in page one
      only as far as they wrap. */
  function SavedAt(k: Kind, s: Cpu, n: int): int {
    var down := Bytes(k) - n;
    if k == Plain then (if s.emul then 0x100 + U8(s.sp - down) else U16(s.sp - down)) else U16(s.sp - down)
  }

  /** A body keeps the mode, brings the stack pointer back and leaves alone what the call saved. */
  predicate Body(k: Kind, s: Cpu, t: Cpu) {
    var o := CallOf(k, s);
    t.emul == s.emul && t.sp == o.sp
    && forall n :: 1 <= n <= Bytes(k) ==> Peek(t.mem, SavedAt(k, s, n)) == Peek(o.mem, SavedAt(k, s, n))
  }

  /** The return goes behind the call, with the stack pointer as before and, after a long call, the bank. */
  predicate Returns(k: Kind, s: Cpu, t: Cpu) {
    var u := ReturnOf(k, t);
    u.sp == s.sp && u.pc == U16(s.pc + Bytes(k) + 1) && (k == Long ==> u.pbr == s.pbr)
  }

  /** In emulation mode the stack pointer must leave room in page one for the pushes that do not wrap. */
  predicate Room(k: Kind, s: Cpu) {
    s.emul ==> match k
               case Plain => true
               case Indexed => s.sp >= 0x101
               case Long => s.sp >= 0x103
  }

  lemma EmulationStack(sp: int)
    requires 0x100 <= sp <= 0x1ff
    ensures var b := 0x100 + U8(sp - 1);
            b != sp && 0x100 + U8(b - 1) == 0x100 + U8(sp - 2)
            && 0x100 + U8(0x100 + U8(sp - 2) + 1) == b && 0x100 + U8(0x100 + U8(sp - 2) + 2) == sp
  {
  }

  lemma NativeStack(sp: Word)
    ensures var b, d := U16(sp - 1), U16(sp - 2);
            sp != b && b != d && d != sp && U16(b - 1) == d && U16(d - 1) == U16(sp - 3)
            && U16(d + 1) == b && U16(d + 2) == sp
            && U16(U16(sp - 3) + 1) == d && U16(U16(sp - 3) + 2) == b && U16(U16(sp - 3) + 3) == sp
  {
  }

  /** What is on the stack after a call, and that the return reads it. */
  lemma PlainSaved(s: Cpu)
    requires Widths(s)
    ensures var o, w := Jsr(s), U16(s.pc + 2);
            Peek(o.mem, SavedAt(Plain, s, 1)) == Lo(w) && Peek(o.mem, SavedAt(Plain, s, 2)) == Hi(w)
            && StackUp(o, 1) == SavedAt(Plain, s, 1) && StackUp(o, 2) == SavedAt(Plain, s, 2) == s.sp
  {
    hide Lo, Hi, U8, U16;
    Mod16Word(s.sp);
    if s.emul {
      EmulationStack(s.sp);
      SamePage(s.sp);
    } else {
      NativeStack(s.sp);
    }
  }

  lemma SamePage(sp: int)
    requires 0x100 <= sp <= 0x1ff
    ensures 0x100 + U8(sp) == sp
  {
  }

  lemma PlainReturns(s: Cpu, t: Cpu)
    requires Widths(s) && Body(Plain, s, t)
    ensures Returns(Plain, s, t)
  {
    hide Lo, Hi, U8, U16, Jsr, SavedAt;
    PlainSaved(s);
    WordParts(U16(s.pc + 2));
    Mod16(s.pc + 2, 1);
    CallMode(s);
  }

  lemma CallMode(s: Cpu)
    ensures Jsr(s).emul == JsrIndexed(s).emul == Jsl(s).emul == s.emul
  {
  }

  /** In emulation mode with room the raw pushes stay in page one. */
  lemma RoomyStack(sp: int)
    requires 0x101 <= sp <= 0x1ff
    ensures U16(sp) == sp && U16(sp - 1) == sp - 1 && 0x100 + U8(sp) == sp && 0x100 + U8(0x100 + U8(sp - 2) + 1) == sp - 1
            && 0x100 + U8(0x100 + U8(sp - 2) + 2) == sp
    ensures sp >= 0x103 ==> U16(sp - 2) == sp - 2 && 0x100 + U8(sp - 3) == sp - 3 && U16(sp - 3) == sp - 3
  {
  }

  lemma IndexedSaved(s: Cpu)
    requires Widths(s) && Room(Indexed, s)
    ensures var o, w := JsrIndexed(s), U16(s.pc + 2);
            Peek(o.mem, SavedAt(Indexed, s, 1)) == Lo(w) && Peek(o.mem, SavedAt(Indexed, s, 2)) == Hi(w)
            && StackUp(o, 1) == SavedAt(Indexed, s, 1) && StackUp(o, 2) == SavedAt(Indexed, s, 2) == s.sp
  {
    hide Lo, Hi, U8, U16, Fetch;
    Mod16Word(s.sp);
    if s.emul {
      RoomyStack(s.sp);
    } else {
      NativeStack(s.sp);
    }
  }

  lemma IndexedReturns(s: Cpu, t: Cpu)
    requires Widths(s) && Room(Indexed, s) && Body(Indexed, s, t)
    ensures Returns(Indexed, s, t)
  {
    hide Lo, Hi, U8, U16, JsrIndexed, SavedAt;
    IndexedSaved(s);
    WordParts(U16(s.pc + 2));
    Mod16(s.pc + 2, 1);
    CallMode(s);
  }

  lemma LongSaved(s: Cpu)
    requires Widths(s) && Room(Long, s)
    ensures var o, w := Jsl(s), U16(s.pc + 3);
            Peek(o.mem, SavedAt(Long, s, 1)) == Lo(w) && Peek(o.mem, SavedAt(Long, s, 2)) == Hi(w)
            && Peek(o.mem, SavedAt(Long, s, 3)) == s.pbr
            && U16(o.sp + 1) == SavedAt(Long, s, 1) && U16(o.sp + 2) == SavedAt(Long, s, 2)
            && U16(o.sp + 3) == SavedAt(Long, s, 3) && StackUp(o, 3) == s.sp
  {
    hide Lo, Hi, U8, U16, Fetch;
    Mod16Word(s.sp);
    if s.emul {
      RoomyStack(s.sp);
      RoomyStack(s.sp - 1);
    } else {
      NativeStack(s.sp);
    }
  }

  lemma LongReturns(s: Cpu, t: Cpu)
    requires Widths(s) && Room(Long, s) && Body(Long, s, t)
    ensures Returns(Long, s, t)
  {
    hide Lo, Hi, U8, U16, Jsl, SavedAt;
    LongSaved(s);
    WordParts(U16(s.pc + 3));
    Mod16(s.pc + 3, 1);
    CallMode(s);
  }

  /** A body that writes next to what the call saved, at the place where the return looks for it. */
  function Spoiled(k: Kind, s: Cpu): Cpu {
    var o := CallOf(k, s);
    var at := if k == Long then U16(o.sp + 1) else StackUp(o, 1);
    o.(mem := o.mem[at := U8(Lo(U16(s.pc + Bytes(k))) + 1)])
  }

  lemma WrongTarget(w: Word, h: Byte)
    ensures U16(Pair(U8(Lo(w) + 1), h) + 1) != U16(w + 1)
  {
    assert U16(w + 1) % 0x100 == U8(Lo(w) + 1);
    assert U16(Pair(U8(Lo(w) + 1), h) + 1) % 0x100 == U8(U8(Lo(w) + 1) + 1);
  }

  lemma SpoiledIsBody(k: Kind, s: Cpu)
    requires Widths(s) && !Room(k, s)
    ensures Body(k, s, Spoiled(k, s))
  {
    hide Fetch, Lo, Hi, Pair;
  }

  /** Exactly when a call is undone by its return after every body that leaves the saved bytes alone: always for a
      plain JSR, with room in page one for the other two. */
  lemma CallsReturn(k: Kind, s: Cpu)
    requires Widths(s)
    ensures (forall t :: Body(k, s, t) ==> Returns(k, s, t)) <==> Room(k, s)
  {
    hide Body, Fetch, Lo, Hi, Pair, U8, U16, Jsl, JsrIndexed, Jsr;
    if Room(k, s) {
      forall t | Body(k, s, t) ensures Returns(k, s, t) {
        match k
        case Plain => PlainReturns(s, t);
        case Indexed => IndexedReturns(s, t);
        case Long => LongReturns(s, t);
      }
    } else {
      SpoiledIsBody(k, s);
      var t := Spoiled(k, s);
      assert !Returns(k, s, t) by {
        Mod16(s.pc + Bytes(k), 1);
        CallMode(s);
        WrongTarget(U16(s.pc + Bytes(k)), if k == Long then RawAt(t, 2) else PulledAt(t, 2));
      }
    }
  }

  // ---- interrupts ----

  function Frame(s: Cpu): int {
    if s.emul then 3 else 4
  }

  /** Where the n-th byte above the new stack pointer lies after an interrupt. */
  function FrameAt(s: Cpu, n: int): int {
    var down := Frame(s) - n;
    if s.emul then 0x100 + U8(s.sp - down) else U16(s.sp - down)
  }

  /** A handler up to its RTI: it keeps the mode and, in emulation mode, the program bank, brings the stack pointer
      back and leaves the saved bytes alone. */
  predicate Handler(k: Trap, s: Cpu, t: Cpu) {
    var o := Enter(s, k);
    t.emul == s.emul && t.sp == o.sp && (s.emul ==> t.pbr == o.pbr)
    && forall n :: 1 <= n <= Frame(s) ==> Peek(t.mem, FrameAt(s, n)) == Peek(o.mem, FrameAt(s, n))
  }

  /** After RTI the program goes on where it was: address, bank, stack pointer, flags, widths, and the index registers
      if the handler kept them. */
  predicate Resumes(k: Trap, s: Cpu, t: Cpu) {
    var u := Rti(t);
    u.pc == ReturnPc(s, k) && u.pbr == s.pbr && u.sp == s.sp && u.emul == s.emul
    && (u.st.n == s.st.n && u.st.v == s.st.v && u.st.d == s.st.d && u.st.i == s.st.i && u.st.z == s.st.z && u.st.c == s.st.c)
    && (!s.emul ==> u.st == s.st) && (t.x == s.x ==> u.x == s.x) && (t.y == s.y ==> u.y == s.y)
  }

  lemma FrameEmulation(s: Cpu, k: Trap)
    requires Widths(s) && s.emul
    ensures var o, w := Enter(s, k), ReturnPc(s, k);
            Peek(o.mem, FrameAt(s, 1)) == Packed(s.st.(m := true, x := k == Brk || k == Cop))
            && Peek(o.mem, FrameAt(s, 2)) == Lo(w) && Peek(o.mem, FrameAt(s, 3)) == Hi(w)
            && StackUp(o, 1) == FrameAt(s, 1) && StackUp(o, 2) == FrameAt(s, 2) && StackUp(o, 3) == FrameAt(s, 3) == s.sp
            && o.pbr == 0 && o.emul
  {
    hide Lo, Hi, U8, Packed, Vector, ReturnPc;
    PageThree(s.sp);
  }

  lemma PageThree(sp: int)
    requires 0x100 <= sp <= 0x1ff
    ensures var a, b, c := 0x100 + U8(sp - 1), 0x100 + U8(sp - 2), 0x100 + U8(sp - 3);
            0x100 + U8(sp - 0) == sp && 0x100 + U8(a - 1) == b && 0x100 + U8(b - 1) == c && sp != a && a != b && b != sp
            && 0x100 + U8(c + 1) == b && 0x100 + U8(c + 2) == a && 0x100 + U8(c + 3) == sp
  {
  }

  lemma FrameNative(s: Cpu, k: Trap)
    requires !s.emul
    ensures var o, w := Enter(s, k), ReturnPc(s, k);
            Peek(o.mem, FrameAt(s, 1)) == Packed(s.st) && Peek(o.mem, FrameAt(s, 4)) == s.pbr
            && Peek(o.mem, FrameAt(s, 2)) == Lo(w) && Peek(o.mem, FrameAt(s, 3)) == Hi(w)
            && StackUp(o, 1) == FrameAt(s, 1) && StackUp(o, 2) == FrameAt(s, 2)
            && StackUp(o, 3) == FrameAt(s, 3) && StackUp(o, 4) == FrameAt(s, 4) == s.sp && !o.emul
  {
    hide Lo, Hi, U16, Packed, Vector, ReturnPc;
    BankFour(s.sp);
  }

  lemma BankFour(sp: Word)
    ensures var a, b, c, d := U16(sp - 1), U16(sp - 2), U16(sp - 3), U16(sp - 4);
            U16(sp - 0) == sp && U16(a - 1) == b && U16(b - 1) == c && U16(c - 1) == d
            && sp != a && a != b && b != c && sp != b && sp != c && a != c
            && U16(d + 1) == c && U16(d + 2) == b && U16(d + 3) == a && U16(d + 4) == sp
  {
    hide U16;
    Mod16Word(sp);
    Mod16(sp - 1, -1);
    Mod16(sp - 2, -1);
    Mod16(sp - 3, -1);
    Mod16(sp - 4, 1);
    Mod16(sp - 4, 2);
    Mod16(sp - 4, 3);
    Mod16(sp - 4, 4);
    Apart16(sp, 0, 1);
    Apart16(sp, 1, 2);
    Apart16(sp, 2, 3);
    Apart16(sp, 0, 2);
    Apart16(sp, 0, 3);
    Apart16(sp, 1, 3);
  }

  lemma PackedStatus(st: Status)
    ensures Unpacked(Packed(st)) == st
  {
    hide Bit0, Bit1, Bit2, Bit3, Bit4, Bit5, Bit6, Bit7;
    ByteBits(st.n, st.v, st.m, st.x, st.d, st.i, st.z, st.c);
  }

  lemma HandlerResumes(k: Trap, s: Cpu, t: Cpu)
    requires Widths(s) && Handler(k, s, t) && (s.emul ==> s.pbr == 0)
    ensures Resumes(k, s, t)
  {
    hide Lo, Hi, U8, U16, Packed, Unpacked, Enter, FrameAt, ReturnPc, Vector;
    WordParts(ReturnPc(s, k));
    PackedStatus(s.st);
    PackedStatus(s.st.(m := true, x := k == Brk || k == Cop));
    LowByte(s.x);
    LowByte(s.y);
    if s.emul {
      FrameEmulation(s, k);
    } else {
      FrameNative(s, k);
    }
  }

  lemma LowByte(w: Word)
    ensures w <= 0xff ==> Lo(w) == w
  {
  }

  /** Interrupts, BRK and COP are transparent to the program exactly in native mode and in bank 0: in emulation mode
      the bank is cleared and never restored. */
  lemma InterruptsResume(k: Trap, s: Cpu)
    requires Widths(s)
    ensures (forall t :: Handler(k, s, t) ==> Resumes(k, s, t)) <==> !s.emul || s.pbr == 0
  {
    hide Handler, Resumes;
    if !s.emul || s.pbr == 0 {
      forall t | Handler(k, s, t) ensures Resumes(k, s, t) {
        HandlerResumes(k, s, t);
      }
    } else {
      BankLost(k, s);
    }
  }

  lemma BankLost(k: Trap, s: Cpu)
    requires s.emul && s.pbr != 0
    ensures Handler(k, s, Enter(s, k)) && !Resumes(k, s, Enter(s, k))
  {
  }
}
