/** What the 65816's instructions mean, in all its modes and widths: where calls and interrupts go and what they leave
    on the stack, and what the registers and flags are after transfers, pulls, REP, SEP and XCE. */
module Laws65816 {
  import opened Bits
  import opened Isa65816
  import opened Modes65816

  // ---- the program and the stack as bytes ----

  /** The n-th byte from the opcode on, in the program bank. */
  function CodeByte(s: Cpu, mem: Memory, n: int): Byte {
    Peek(mem, (s.pc + n) % 65536 + 65536 * s.pbr)
  }

  function CodeWord(s: Cpu, mem: Memory): int {
    CodeByte(s, mem, 1) + 256 * CodeByte(s, mem, 2)
  }

  /** k bytes below the top of the stack; the emulation mode stays in page one. */
  function Down(s: Cpu, k: int): int {
    if s.emul then 256 + (s.sp - k) % 256 else (s.sp - k) % 65536
  }

  /** These bytes, the first of them on top, are all that has come on the stack. */
  ghost predicate Stacked(s: Cpu, t: Cpu, bytes: seq<Byte>) {
    && t.sp == Down(s, |bytes|)
    && (forall k :: 0 <= k < |bytes| ==> Peek(t.mem, Down(s, k)) == bytes[k])
    && (forall a :: (forall k :: 0 <= k < |bytes| ==> a != Down(s, k)) ==> Peek(t.mem, a) == Peek(s.mem, a))
  }

  lemma TopOfStack(s: Cpu)
    requires Widths(s)
    ensures Down(s, 0) == s.sp
  {
  }

  lemma PushStacks(s: Cpu, v: Byte)
    requires Widths(s)
    ensures Stacked(s, Push(s, v), [v]) && Widths(Push(s, v)) && Push(s, v) == s.(mem := Push(s, v).mem, sp := Push(s, v).sp)
  {
    TopOfStack(s);
  }

  lemma DownTwice(s: Cpu, t: Cpu, j: int, k: int)
    requires t.sp == Down(s, j) && t.emul == s.emul
    ensures Down(t, k) == Down(s, j + k)
  {
    hide U8, U16;
    Mod8(s.sp - j, -k);
    Mod16(s.sp - j, -k);
    PageByte(U8(s.sp - j) - k);
    assert U8(s.sp - j) == (s.sp - j) % 256 && U16(s.sp - j) == (s.sp - j) % 65536 by { UnfoldMod(s.sp - j); }
    assert U8(s.sp - j - k) == (s.sp - j - k) % 256 && U16(s.sp - j - k) == (s.sp - j - k) % 65536 by { UnfoldMod(s.sp - j - k); }
    UnfoldMod(t.sp - k);
  }

  lemma UnfoldMod(v: int)
    ensures U8(v) == v % 256 && U16(v) == v % 65536
  {
  }

  /** Places on the stack that are not a whole page apart differ. */
  lemma DownApart(s: Cpu, j: int, k: int)
    requires 0 <= j < k < j + 256
    ensures Down(s, j) != Down(s, k)
  {
  }

  /** What is stacked on what is stacked. */
  lemma StackedTwice(s: Cpu, t: Cpu, u: Cpu, first: seq<Byte>, second: seq<Byte>)
    requires Stacked(s, t, first) && Stacked(t, u, second) && t.emul == s.emul && u.emul == s.emul
    requires |first| + |second| < 256
    ensures Stacked(s, u, first + second)
  {
    hide Down;
    var all := first + second;
    DownTwice(s, t, |first|, |second|);
    forall k | 0 <= k < |second| ensures Down(t, k) == Down(s, |first| + k) {
      DownTwice(s, t, |first|, k);
    }
    forall k | 0 <= k < |all| ensures Peek(u.mem, Down(s, k)) == all[k] {
      if k < |first| {
        forall j | 0 <= j < |second| ensures Down(s, k) != Down(t, j) {
          DownApart(s, k, |first| + j);
        }
      } else {
        assert Down(t, k - |first|) == Down(s, k);
      }
    }
    forall a | forall k :: 0 <= k < |all| ==> a != Down(s, k) ensures Peek(u.mem, a) == Peek(s.mem, a) {
      forall j | 0 <= j < |second| ensures a != Down(t, j) {
        assert Down(t, j) == Down(s, |first| + j);
      }
    }
  }

  lemma WordStacks(s: Cpu, w: Word)
    requires Widths(s)
    ensures var t := PushWord(s, w);
            Stacked(s, t, [w / 256, w % 256]) && Widths(t) && t == s.(mem := t.mem, sp := t.sp)
  {
    hide Stacked, Push, Widths;
    PushStacks(s, Hi(w));
    PushStacks(Push(s, Hi(w)), Lo(w));
    StackedTwice(s, Push(s, Hi(w)), PushWord(s, w), [Hi(w)], [Lo(w)]);
    assert [Hi(w)] + [Lo(w)] == [w / 256, w % 256];
  }

  // ---- calls ----

  lemma Calls(s: Cpu)
    ensures Step(s, Call) == Jsr(s) && Step(s, CallIndexed) == JsrIndexed(s) && Step(s, CallLong) == Jsl(s)
  {
    hide WithIndex, WithAccumulator, WithStack, SetNZ, PushWide, Push, PushWordRaw, Shrunk, Isa65816.Pulled, Above,
      PulledAt, LoadStatus, RawAt, StackUp, RepSep, Xce, Jsr, JsrIndexed, Jsl, Rts, Rtl, Enter, Rti, Move, ResetState;
  }

  lemma Interrupts(s: Cpu, k: Trap)
    ensures Step(s, Interrupt(k)) == Enter(s, k)
  {
    hide WithIndex, WithAccumulator, WithStack, SetNZ, PushWide, Push, PushWordRaw, Shrunk, Isa65816.Pulled, Above,
      PulledAt, LoadStatus, RawAt, StackUp, RepSep, Xce, Jsr, JsrIndexed, Jsl, Rts, Rtl, Enter, Rti, Move, ResetState;
  }

  lemma WordRest(s: Cpu, w: Word)
    ensures var t := PushWord(s, w); t == s.(mem := t.mem, sp := t.sp)
    ensures var t := PushWordRaw(s, w); t == s.(mem := t.mem, sp := t.sp)
  {
  }

  /** JSR goes to the word behind the opcode; the address of its last byte comes on the stack. */
  lemma CallGoesTo(s: Cpu)
    ensures var t := Step(s, Call); t.pc == CodeWord(s, s.mem) && t == s.(pc := t.pc, mem := t.mem, sp := t.sp)
    ensures Widths(s) ==> var ret := (s.pc + 2) % 65536; Stacked(s, Step(s, Call), [ret / 256, ret % 256])
  {
    hide *;
    Calls(s);
    JsrGoesTo(s);
    if Widths(s) {
      JsrStacks(s);
    }
  }

  lemma JsrGoesTo(s: Cpu)
    ensures var t := Jsr(s); t.pc == CodeWord(s, s.mem) && t == s.(pc := t.pc, mem := t.mem, sp := t.sp)
  {
    WordRest(s, U16(s.pc + 2));
    hide PushWord, Peek;
  }

  lemma JsrStacks(s: Cpu)
    requires Widths(s)
    ensures var ret := (s.pc + 2) % 65536; Stacked(s, Jsr(s), [ret / 256, ret % 256])
  {
    var ret := U16(s.pc + 2);
    WordStacks(s, ret);
    SameStack(s, PushWord(s, ret), Jsr(s), [ret / 256, ret % 256]);
    hide PushWord, Stacked, Peek;
  }

  /** Room for n bytes that are pushed without a wrap in page one. */
  predicate Unwrapped(s: Cpu, n: int) {
    s.emul ==> s.sp >= 256 + n
  }

  lemma RawStacks(s: Cpu, v: Byte)
    requires Widths(s) && Unwrapped(s, 1)
    ensures var t := RawPush(s, v);
            Stacked(s, t, [v]) && Widths(t) && t == s.(mem := t.mem, sp := t.sp)
  {
    TopOfStack(s);
  }

  lemma RawWordStacks(s: Cpu, w: Word)
    requires Widths(s) && Unwrapped(s, 1)
    ensures var t := PushWordRaw(s, w); Stacked(s, t, [w / 256, w % 256]) && Widths(t)
  {
    hide Stacked, Push, RawPush, Widths, Unwrapped;
    var t := RawPush(s, Hi(w));
    RawStacks(s, Hi(w));
    PushStacks(t, Lo(w));
    StackedTwice(s, t, Push(t, Lo(w)), [Hi(w)], [Lo(w)]);
    assert [Hi(w)] + [Lo(w)] == [w / 256, w % 256];
  }

  /** JSR (addr,X) goes to the word that stands at addr + X in the program bank, in memory as the pushes have left it;
      the high byte of addr, too, is fetched behind the pushes. */
  lemma IndexedCallGoesTo(s: Cpu)
    ensures var t := Step(s, CallIndexed);
            var p := (CodeByte(s, s.mem, 1) + 256 * CodeByte(s, t.mem, 2) + s.x) % 65536;
            t.pc == Peek(t.mem, p + 65536 * s.pbr) + 256 * Peek(t.mem, (p + 1) % 65536 + 65536 * s.pbr)
            && t == s.(pc := t.pc, mem := t.mem, sp := t.sp)
    ensures Widths(s) && Unwrapped(s, 1) ==>
              var ret := (s.pc + 2) % 65536; Stacked(s, Step(s, CallIndexed), [ret / 256, ret % 256])
  {
    hide *;
    Calls(s);
    IndexedGoesTo(s);
    if Widths(s) && Unwrapped(s, 1) {
      IndexedStacks(s);
    }
  }

  lemma IndexedGoesTo(s: Cpu)
    ensures var t := JsrIndexed(s);
            var p := (CodeByte(s, s.mem, 1) + 256 * CodeByte(s, t.mem, 2) + s.x) % 65536;
            t.pc == Peek(t.mem, p + 65536 * s.pbr) + 256 * Peek(t.mem, (p + 1) % 65536 + 65536 * s.pbr)
            && t == s.(pc := t.pc, mem := t.mem, sp := t.sp)
  {
    hide PushWordRaw, Peek, CodeByte, Fetch, JsrIndexed;
    var t := PushWordRaw(s, U16(s.pc + 2));
    WordRest(s, U16(s.pc + 2));
    FetchesCode(s, s, 1);
    FetchesCode(s, t, 2);
    var p: int := U16(CodeByte(s, s.mem, 1) + 256 * CodeByte(s, t.mem, 2) + s.x);
    IndexedParts(s, t, p);
    FetchesAt(t, p);
    FetchesAt(t, U16(p + 1));
    hide U16;
    UnfoldMod(CodeByte(s, s.mem, 1) + 256 * CodeByte(s, t.mem, 2) + s.x);
    UnfoldMod(p + 1);
  }

  lemma IndexedParts(s: Cpu, t: Cpu, p: Word)
    requires t == PushWordRaw(s, U16(s.pc + 2))
    requires p == U16(Fetch(s, U16(s.pc + 1)) + 256 * Fetch(t, U16(s.pc + 2)) + s.x)
    ensures JsrIndexed(s) == t.(pc := Fetch(t, p) + 256 * Fetch(t, U16(p + 1)))
  {
    hide PushWordRaw, Fetch, U16;
  }

  lemma FetchesCode(s: Cpu, t: Cpu, n: int)
    requires t.pbr == s.pbr
    ensures Fetch(t, U16(s.pc + n)) == CodeByte(s, t.mem, n)
  {
  }

  lemma FetchesAt(t: Cpu, a: int)
    ensures Fetch(t, a) == Peek(t.mem, a + 65536 * t.pbr)
  {
  }

  lemma IndexedStacks(s: Cpu)
    requires Widths(s) && Unwrapped(s, 1)
    ensures var ret := (s.pc + 2) % 65536; Stacked(s, JsrIndexed(s), [ret / 256, ret % 256])
  {
    var ret := U16(s.pc + 2);
    RawWordStacks(s, ret);
    SameStack(s, PushWordRaw(s, ret), JsrIndexed(s), [ret / 256, ret % 256]);
    hide PushWordRaw, Stacked, Peek;
  }

  /** JSL goes to the word behind the opcode in the bank that the fourth byte names, unless the push of the old bank
      has just overwritten it. */
  lemma LongCallGoesTo(s: Cpu)
    ensures var t := Step(s, CallLong);
            t.pc == CodeWord(s, s.mem)
            && t.pbr == (if (s.pc + 3) % 65536 + 65536 * s.pbr == s.sp then s.pbr else CodeByte(s, s.mem, 3))
            && t == s.(pc := t.pc, pbr := t.pbr, mem := t.mem, sp := t.sp)
    ensures Widths(s) && Unwrapped(s, 2) ==>
              var ret := (s.pc + 3) % 65536; Stacked(s, Step(s, CallLong), [s.pbr, ret / 256, ret % 256])
  {
    hide *;
    Calls(s);
    LongGoesTo(s);
    if Widths(s) && Unwrapped(s, 2) {
      LongStacks(s);
    }
  }

  lemma LongGoesTo(s: Cpu)
    ensures var t := Jsl(s);
            t.pc == CodeWord(s, s.mem)
            && t.pbr == (if (s.pc + 3) % 65536 + 65536 * s.pbr == s.sp then s.pbr else CodeByte(s, s.mem, 3))
            && t == s.(pc := t.pc, pbr := t.pbr, mem := t.mem, sp := t.sp)
  {
    var b := RawPush(s, s.pbr);
    WordRest(b.(pbr := Fetch(b, U16(s.pc + 3))), U16(s.pc + 3));
    hide PushWordRaw;
  }

  lemma LongStacks(s: Cpu)
    requires Widths(s) && Unwrapped(s, 2)
    ensures var ret := (s.pc + 3) % 65536; Stacked(s, Jsl(s), [s.pbr, ret / 256, ret % 256])
  {
    hide RawPush, PushWordRaw, Jsl, Stacked, Widths, Unwrapped;
    var b, c, ret := RawPush(s, s.pbr), Rebanked(s), U16(s.pc + 3);
    Roomy(s);
    RawStacks(s, s.pbr);
    SameStack(s, b, c, [s.pbr]);
    RawWordStacks(c, ret);
    WordRest(c, ret);
    StackedTwice(s, c, PushWordRaw(c, ret), [s.pbr], [ret / 256, ret % 256]);
    assert [s.pbr] + [ret / 256, ret % 256] == [s.pbr, ret / 256, ret % 256];
    LongMemory(s);
    SameStack(s, PushWordRaw(c, ret), Jsl(s), [s.pbr, ret / 256, ret % 256]);
  }

  /** The old bank has been pushed and the new one fetched. */
  function Rebanked(s: Cpu): Cpu {
    RawPush(s, s.pbr).(pbr := Fetch(RawPush(s, s.pbr), U16(s.pc + 3)))
  }

  lemma LongMemory(s: Cpu)
    ensures var t := PushWordRaw(Rebanked(s), U16(s.pc + 3)); Jsl(s).mem == t.mem && Jsl(s).sp == t.sp
  {
    hide PushWordRaw, RawPush, Fetch, Pair;
  }

  lemma Roomy(s: Cpu)
    requires Widths(s) && Unwrapped(s, 2)
    ensures Unwrapped(s, 1) && Unwrapped(Rebanked(s), 1) && Widths(Rebanked(s)) && Rebanked(s).emul == s.emul
    ensures RawPush(s, s.pbr).mem == Rebanked(s).mem && RawPush(s, s.pbr).sp == Rebanked(s).sp
  {
    hide Fetch;
  }

  /** Only memory and the stack pointer count. */
  lemma SameStack(s: Cpu, t: Cpu, u: Cpu, bytes: seq<Byte>)
    requires Stacked(s, t, bytes) && t.mem == u.mem && t.sp == u.sp
    ensures Stacked(s, u, bytes)
  {
  }

  /** A call to any address, written out byte by byte. */
  lemma CallReaches(s: Cpu, target: Word)
    requires CodeByte(s, s.mem, 1) == target % 256 && CodeByte(s, s.mem, 2) == target / 256
    ensures Step(s, Call).pc == target && Step(s, Call).pbr == s.pbr && Step(s, CallLong).pc == target
  {
    hide Step;
    CallGoesTo(s);
    LongCallGoesTo(s);
  }

  // ---- interrupts ----

  function VectorOf(emul: bool, k: Trap): int {
    match (emul, k)
    case (true, Cop) => 0xfff4
    case (true, Nmi) => 0xfffa
    case (true, _) => 0xfffe
    case (false, Cop) => 0xffe4
    case (false, Brk) => 0xffe6
    case (false, Nmi) => 0xffea
    case (false, Irq) => 0xffee
  }

  /** BRK, COP, IRQ and NMI go to bank 0 through the vector of their mode, with I set and D clear. */
  lemma InterruptGoesTo(s: Cpu, k: Trap)
    ensures var t, v := Step(s, Interrupt(k)), VectorOf(s.emul, k);
            t.pc == Peek(t.mem, v) + 256 * Peek(t.mem, v + 1) && t.pbr == 0
            && t.st == s.st.(i := true, d := false, x := if s.emul then k == Brk || k == Cop else s.st.x)
            && t == s.(pc := t.pc, pbr := 0, st := t.st, mem := t.mem, sp := t.sp)
  {
    hide Step, Enter, VectorOf;
    Interrupts(s, k);
    EnterGoesTo(s, k);
  }

  lemma EnterGoesTo(s: Cpu, k: Trap)
    ensures var t, v := Enter(s, k), VectorOf(s.emul, k);
            t.pc == Peek(t.mem, v) + 256 * Peek(t.mem, v + 1) && t.pbr == 0
            && t.st == s.st.(i := true, d := false, x := if s.emul then k == Brk || k == Cop else s.st.x)
            && t == s.(pc := t.pc, pbr := 0, st := t.st, mem := t.mem, sp := t.sp)
  {
    hide PushedStatus, Lo, Hi, U8, U16, Peek, ReturnPc;
  }

  /** They leave the bank in native mode, then the address to return to and the status on the stack. */
  lemma InterruptStacks(s: Cpu, k: Trap)
    requires Widths(s)
    ensures var t, ret := Step(s, Interrupt(k)), (s.pc + (if k == Brk || k == Cop then 2 else 0)) % 65536;
            Stacked(s, t, (if s.emul then [] else [s.pbr]) + [ret / 256, ret % 256, StatusByte(s, k)])
  {
    Interrupts(s, k);
    ReturnAddress(s, k);
    StatusStacks(s, k);
    EnterStacks(s, k);
    hide Step, Stacked, StatusByte, PushedStatus, Enter, ReturnPc, Widths, Banked;
  }

  lemma ReturnAddress(s: Cpu, k: Trap)
    ensures ReturnPc(s, k) == (s.pc + (if k == Brk || k == Cop then 2 else 0)) % 65536
  {
  }

  lemma EnterStacks(s: Cpu, k: Trap)
    requires Widths(s)
    ensures var ret := ReturnPc(s, k);
            Stacked(s, Enter(s, k), (if s.emul then [] else [s.pbr]) + [ret / 256, ret % 256, PushedStatus(Banked(s, k))])
  {
    hide Stacked, PushedStatus, Push, PushWord, Vector, Pair, Peek, ReturnPc, Widths;
    var b, ret := Banked(s, k), ReturnPc(s, k);
    var saved: seq<Byte> := if s.emul then [] else [s.pbr];
    var bytes: seq<Byte> := [ret / 256, ret % 256, PushedStatus(b)];
    var t := Push(PushWord(b, ret), PushedStatus(b));
    BankStacks(s, k);
    AddressStacks(b, ret);
    StackedTwice(s, b, t, saved, bytes);
    SameStack(s, t, Enter(s, k), saved + bytes);
  }

  lemma AddressStacks(b: Cpu, ret: Word)
    requires Widths(b)
    ensures var t := Push(PushWord(b, ret), PushedStatus(b));
            Stacked(b, t, [ret / 256, ret % 256, PushedStatus(b)]) && t.emul == b.emul
  {
    WordStacks(b, ret);
    PushStacks(PushWord(b, ret), PushedStatus(b));
    hide Stacked, PushedStatus, Push, PushWord;
    StackedTwice(b, PushWord(b, ret), Push(PushWord(b, ret), PushedStatus(b)), [ret / 256, ret % 256], [PushedStatus(b)]);
    assert [ret / 256, ret % 256] + [PushedStatus(b)] == [ret / 256, ret % 256, PushedStatus(b)];
  }

  /** The break flag is set or the bank has been pushed. */
  function Banked(s: Cpu, k: Trap): Cpu {
    if s.emul then s.(st := s.st.(x := k == Brk || k == Cop)) else Push(s, s.pbr)
  }

  lemma BankStacks(s: Cpu, k: Trap)
    requires Widths(s)
    ensures var b := Banked(s, k);
            Stacked(s, b, if s.emul then [] else [s.pbr]) && Widths(b) && b.emul == s.emul
  {
    TopOfStack(s);
  }

  /** The status byte that an interrupt pushes: N V M X D I Z C; in emulation mode 1 for M and B for X. */
  function StatusByte(s: Cpu, k: Trap): int {
    var m := s.emul || s.st.m;
    var x := if s.emul then k == Brk || k == Cop else s.st.x;
    128 * Num(s.st.n) + 64 * Num(s.st.v) + 32 * Num(m) + 16 * Num(x) + 8 * Num(s.st.d) + 4 * Num(s.st.i)
    + 2 * Num(s.st.z) + Num(s.st.c)
  }

  lemma StatusStacks(s: Cpu, k: Trap)
    ensures PushedStatus(Banked(s, k)) == StatusByte(s, k)
  {
    var m, x := s.emul || s.st.m, if s.emul then k == Brk || k == Cop else s.st.x;
    ByteSum(s.st.n, s.st.v, m, x, s.st.d, s.st.i, s.st.z, s.st.c);
    hide ByteOf;
  }

  /** Reset goes to bank 0 through $FFFC, in emulation mode with I set and D clear. */
  lemma ResetGoesTo(s: Cpu)
    ensures var t := Step(s, Reset);
            t.pc == Peek(s.mem, 0xfffc) + 256 * Peek(s.mem, 0xfffd) && t.pbr == 0 && t.dbr == 0 && t.dpr == 0 && t.emul
            && t.st.i && !t.st.d && t.sp == 256 + (s.sp - 3) % 256 && t.x == s.x % 256 && t.y == s.y % 256
            && t.c == s.c && t.mem == s.mem
  {
  }

  // ---- registers ----

  /** What fits into a register of the given width. */
  function Fit(v: Word, narrow: bool): Word {
    if narrow then v % 256 else v
  }

  /** N is the top bit and Z says zero, in the given width; the other flags stay. */
  predicate FlagsOf(st: Status, v: Word, narrow: bool, t: Status) {
    t == st.(n := if narrow then v % 256 >= 128 else v >= 32768, z := Fit(v, narrow) == 0)
  }

  lemma NZMeans(st: Status, v: Word, narrow: bool)
    ensures FlagsOf(st, v, narrow, SetNZ(st, v, narrow))
  {
    if narrow {
      assert Bit7(v) == (v % 256 >= 128);
    } else {
      TopBit(v);
    }
    hide Bit7, Hi;
  }

  lemma TopBit(v: Word)
    ensures Bit7(Hi(v)) == (v >= 32768)
  {
  }

  /** An index register takes what fits into it. */
  predicate IndexTakes(s: Cpu, t: Cpu, r: Index, v: Word) {
    t == (if r == X then s.(x := Fit(v, s.emul || s.st.x), st := t.st) else s.(y := Fit(v, s.emul || s.st.x), st := t.st))
    && FlagsOf(s.st, v, s.emul || s.st.x, t.st)
  }

  /** A narrow accumulator keeps its high byte. */
  predicate AccumulatorTakes(s: Cpu, t: Cpu, v: Word) {
    t == s.(c := if s.emul || s.st.m then s.c / 256 * 256 + v % 256 else v, st := t.st)
    && FlagsOf(s.st, v, s.emul || s.st.m, t.st)
  }

  lemma TakesIndex(s: Cpu, r: Index, v: Word)
    ensures IndexTakes(s, WithIndex(s, r, v), r, v)
  {
    NZMeans(s.st, if Narrow(s) then Lo(v) else v, Narrow(s));
    hide SetNZ;
  }

  lemma TakesAccumulator(s: Cpu, v: Word)
    ensures AccumulatorTakes(s, WithAccumulator(s, v), v)
  {
    NZMeans(s.st, v, NarrowA(s));
    hide SetNZ;
  }

  /** Loads, INX, INY, DEX and DEY. */
  lemma IndexMeans(s: Cpu, r: Index, v: Word, step: int)
    ensures IndexTakes(s, Step(s, LoadIndex(r, v)), r, v)
    ensures IndexTakes(s, Step(s, CountIndex(r, step)), r, ((if r == X then s.x else s.y) + step) % 65536)
    ensures AccumulatorTakes(s, Step(s, Accumulate(v)), v)
  {
    TakesIndex(s, r, v);
    TakesIndex(s, r, U16(IndexOf(s, r) + step));
    TakesAccumulator(s, v);
    hide WithIndex, WithAccumulator, IndexTakes, AccumulatorTakes;
  }

  /** Transfers between the accumulator, the index registers and the stack pointer. */
  lemma TransferMeans(s: Cpu)
    ensures IndexTakes(s, Step(s, Tax(X)), X, s.c) && IndexTakes(s, Step(s, Tax(Y)), Y, s.c)
    ensures IndexTakes(s, Step(s, Tsx), X, s.sp)
    ensures AccumulatorTakes(s, Step(s, Txa(X)), s.x) && AccumulatorTakes(s, Step(s, Txa(Y)), s.y)
    ensures Widths(s) ==> IndexTakes(s, Step(s, Txy), Y, s.x) && IndexTakes(s, Step(s, Tyx), X, s.y)
  {
    TakesIndex(s, X, s.c);
    TakesIndex(s, Y, s.c);
    TakesIndex(s, X, s.sp);
    TakesAccumulator(s, s.x);
    TakesAccumulator(s, s.y);
    TransferIndexes(s);
    hide WithIndex, WithAccumulator, IndexTakes, AccumulatorTakes, SetNZ;
  }

  lemma TransferIndexes(s: Cpu)
    ensures Widths(s) ==> IndexTakes(s, Step(s, Txy), Y, s.x) && IndexTakes(s, Step(s, Tyx), X, s.y)
  {
    NZMeans(s.st, s.x, Narrow(s));
    NZMeans(s.st, s.y, Narrow(s));
    hide SetNZ;
  }

  /** Transfers that are wide in every mode, those to the stack pointer, which set no flags, and the exchange of the two
      halves of the accumulator. */
  lemma WideTransferMeans(s: Cpu)
    ensures var t := Step(s, Tcd); t == s.(dpr := s.c, st := t.st) && FlagsOf(s.st, s.c, false, t.st)
    ensures var t := Step(s, Tdc); t == s.(c := s.dpr, st := t.st) && FlagsOf(s.st, s.dpr, false, t.st)
    ensures var t := Step(s, Tsc); t == s.(c := s.sp, st := t.st) && FlagsOf(s.st, s.sp, false, t.st)
  {
    NZMeans(s.st, s.c, false);
    NZMeans(s.st, s.dpr, false);
    NZMeans(s.st, s.sp, false);
    hide SetNZ, FlagsOf, WithIndex, WithAccumulator, WithStack, PushWide, Push, PushWordRaw, Shrunk, Isa65816.Pulled,
      LoadStatus, RepSep, Xce, Jsr, JsrIndexed, Jsl, Rts, Rtl, Enter, Rti, Move, ResetState;
  }

  lemma StackTransferMeans(s: Cpu)
    ensures Step(s, Tcs) == s.(sp := if s.emul then 256 + s.c % 256 else s.c)
    ensures Widths(s) ==> Step(s, Txs) == s.(sp := if s.emul then 256 + s.x else s.x)
  {
    hide SetNZ, WithIndex, WithAccumulator, PushWide, Push, PushWordRaw, Shrunk, Isa65816.Pulled,
      LoadStatus, RepSep, Xce, Jsr, JsrIndexed, Jsl, Rts, Rtl, Enter, Rti, Move, ResetState;
  }

  lemma ExchangeBytesMeans(s: Cpu)
    ensures var t := Step(s, Xba);
            t == s.(c := t.c) && t.c % 256 == s.c / 256 && t.c / 256 == s.c % 256 && Step(t, Xba) == s
  {
    hide SetNZ, WithIndex, WithAccumulator, WithStack, PushWide, Push, PushWordRaw, Shrunk, Isa65816.Pulled,
      LoadStatus, RepSep, Xce, Jsr, JsrIndexed, Jsl, Rts, Rtl, Enter, Rti, Move, ResetState;
  }

  // ---- pushes and pulls ----

  /** Registers are pushed in their width, the high byte first. */
  lemma PushMeans(s: Cpu, r: Index, v: Byte, w: Word)
    requires Widths(s)
    ensures Stacked(s, Step(s, PushByte(v)), [v])
    ensures Stacked(s, Step(s, PushIndex(r)), Bytes2(if r == X then s.x else s.y, s.emul || s.st.x))
    ensures Stacked(s, Step(s, PushA), Bytes2(s.c, s.emul || s.st.m))
    ensures Unwrapped(s, 1) ==> Stacked(s, Step(s, PushTwo(w)), [w / 256, w % 256])
  {
    PushStacks(s, v);
    WideStacks(s, s.c, NarrowA(s));
    WideStacks(s, IndexOf(s, r), Narrow(s));
    if Unwrapped(s, 1) {
      RawWordStacks(s, w);
    }
    PushSteps(s, r, v, w);
    hide Step, Push, PushWide, PushWordRaw, Stacked, Bytes2, Widths, Unwrapped;
  }

  lemma PushSteps(s: Cpu, r: Index, v: Byte, w: Word)
    ensures Step(s, PushByte(v)) == Push(s, v) && Step(s, PushTwo(w)) == PushWordRaw(s, w)
    ensures Step(s, PushIndex(r)) == PushWide(s, IndexOf(s, r), Narrow(s)) && Step(s, PushA) == PushWide(s, s.c, NarrowA(s))
  {
    hide WithIndex, WithAccumulator, WithStack, SetNZ, PushWide, Push, PushWordRaw, Shrunk, Isa65816.Pulled, Above,
      PulledAt, LoadStatus, RawAt, StackUp, RepSep, Xce, Jsr, JsrIndexed, Jsl, Rts, Rtl, Enter, Rti, Move, ResetState;
  }

  lemma WideStacks(s: Cpu, v: Word, narrow: bool)
    requires Widths(s)
    ensures Stacked(s, PushWide(s, v, narrow), Bytes2(v, narrow))
  {
    PushStacks(s, Lo(v));
    WordStacks(s, v);
    hide Push, PushWord, Stacked;
  }

  /** The bytes of a register, the high one first. */
  function Bytes2(v: Word, narrow: bool): seq<Byte> {
    if narrow then [v % 256] else [v / 256, v % 256]
  }

  function Top(s: Cpu, n: int): Byte {
    Peek(s.mem, if s.emul then 256 + (s.sp + n) % 256 else (s.sp + n) % 65536)
  }

  function Up(s: Cpu, n: int): Cpu {
    s.(sp := if s.emul then 256 + (s.sp + n) % 256 else (s.sp + n) % 65536)
  }

  /** The value of the given width on top of the stack. */
  function TopValue(s: Cpu, narrow: bool): Word {
    if narrow then Top(s, 1) else Top(s, 1) + 256 * Top(s, 2)
  }

  lemma PullMeans(s: Cpu, r: Index)
    ensures var narrow := s.emul || s.st.x;
            IndexTakes(Up(s, if narrow then 1 else 2), Step(s, PullIndex(r)), r, TopValue(s, narrow))
    ensures var narrow := s.emul || s.st.m;
            AccumulatorTakes(Up(s, if narrow then 1 else 2), Step(s, PullA), TopValue(s, narrow))
  {
    PullSteps(s, r);
    OnTop(s, Narrow(s));
    OnTop(s, NarrowA(s));
    TakesIndex(Shrunk(s, Narrow(s)), r, Isa65816.Pulled(s, Narrow(s)));
    TakesAccumulator(Shrunk(s, NarrowA(s)), Isa65816.Pulled(s, NarrowA(s)));
    hide Step, WithIndex, WithAccumulator, IndexTakes, AccumulatorTakes, Shrunk, Isa65816.Pulled, Up, TopValue;
  }

  lemma OnTop(s: Cpu, narrow: bool)
    ensures Shrunk(s, narrow) == Up(s, if narrow then 1 else 2) && Isa65816.Pulled(s, narrow) == TopValue(s, narrow)
  {
    hide Peek;
  }

  lemma PullSteps(s: Cpu, r: Index)
    ensures Step(s, PullIndex(r)) == WithIndex(Shrunk(s, Narrow(s)), r, Isa65816.Pulled(s, Narrow(s)))
    ensures Step(s, PullA) == WithAccumulator(Shrunk(s, NarrowA(s)), Isa65816.Pulled(s, NarrowA(s)))
  {
    hide WithIndex, WithAccumulator, WithStack, SetNZ, PushWide, Push, PushWordRaw, Shrunk, Isa65816.Pulled, Above,
      PulledAt, LoadStatus, RawAt, StackUp, RepSep, Xce, Jsr, JsrIndexed, Jsl, Rts, Rtl, Enter, Rti, Move, ResetState;
  }

  /** The data bank, and the direct page register, whose bytes are pulled without the wrap of the emulation mode; then
      the status, whose width flags truncate the index registers. */
  lemma PullBankMeans(s: Cpu)
    ensures var t := Step(s, PullDbr);
            t == Up(s, 1).(dbr := Top(s, 1), st := t.st) && FlagsOf(s.st, Top(s, 1), true, t.st)
  {
    NZMeans(s.st, Top(s, 1), true);
    hide SetNZ, FlagsOf, WithIndex, WithAccumulator, WithStack, PushWide, Push, PushWordRaw, Shrunk, Isa65816.Pulled,
      LoadStatus, RepSep, Xce, Jsr, JsrIndexed, Jsl, Rts, Rtl, Enter, Rti, Move, ResetState;
  }

  lemma PullDirectMeans(s: Cpu)
    ensures var t, w := Step(s, PullDirect), Peek(s.mem, (s.sp + 1) % 65536) + 256 * Peek(s.mem, (s.sp + 2) % 65536);
            t == Up(s, 2).(dpr := w, st := t.st) && FlagsOf(s.st, w, false, t.st)
  {
    NZMeans(s.st, Pair(RawAt(s, 1), RawAt(s, 2)), false);
    hide SetNZ, FlagsOf, WithIndex, WithAccumulator, WithStack, PushWide, Push, PushWordRaw, Shrunk, Isa65816.Pulled,
      LoadStatus, RepSep, Xce, Jsr, JsrIndexed, Jsl, Rts, Rtl, Enter, Rti, Move, ResetState;
  }

  lemma PullStatusMeans(s: Cpu)
    ensures var t := Step(s, PullStatus);
            t == Up(s, 1).(st := t.st, x := Fit(s.x, s.emul || t.st.x), y := Fit(s.y, s.emul || t.st.x))
            && Packed(t.st) == Top(s, 1)
  {
    UnpackedByte(Top(s, 1));
    hide Packed, Unpacked;
  }

  /** Unpacking a status byte loses nothing. */
  lemma UnpackedByte(v: Byte)
    ensures Packed(Unpacked(v)) == v
  {
    ByteSum(Bit7(v), Bit6(v), Bit5(v), Bit4(v), Bit3(v), Bit2(v), Bit1(v), Bit0(v));
    hide ByteOf;
    BinaryDigits(v);
  }

  lemma BinaryDigits(v: Byte)
    ensures v == Num(Bit0(v)) + 2 * Num(Bit1(v)) + 4 * Num(Bit2(v)) + 8 * Num(Bit3(v)) + 16 * Num(Bit4(v))
                 + 32 * Num(Bit5(v)) + 64 * Num(Bit6(v)) + 128 * Num(Bit7(v))
  {
    var l, h := v % 16, v / 16;
    NibbleDigits(l);
    NibbleDigits(h);
    FromDigits(h / 8 % 2, h / 4 % 2, h / 2 % 2, h % 2, l / 8 % 2, l / 4 % 2, l / 2 % 2, l % 2, v);
  }

  lemma FromDigits(b7: int, b6: int, b5: int, b4: int, b3: int, b2: int, b1: int, b0: int, v: Byte)
    requires 0 <= b7 <= 1 && 0 <= b6 <= 1 && 0 <= b5 <= 1 && 0 <= b4 <= 1
    requires 0 <= b3 <= 1 && 0 <= b2 <= 1 && 0 <= b1 <= 1 && 0 <= b0 <= 1
    requires v == b0 + 2 * b1 + 4 * b2 + 8 * b3 + 16 * b4 + 32 * b5 + 64 * b6 + 128 * b7
    ensures v == Num(Bit0(v)) + 2 * Num(Bit1(v)) + 4 * Num(Bit2(v)) + 8 * Num(Bit3(v)) + 16 * Num(Bit4(v))
                 + 32 * Num(Bit5(v)) + 64 * Num(Bit6(v)) + 128 * Num(Bit7(v))
  {
    hide Bit0, Bit1, Bit2, Bit3, Bit4, Bit5, Bit6, Bit7, Num;
    SumBits(b7, b6, b5, b4, b3, b2, b1, b0);
    Digit(b7, Bit7(v));
    Digit(b6, Bit6(v));
    Digit(b5, Bit5(v));
    Digit(b4, Bit4(v));
    Digit(b3, Bit3(v));
    Digit(b2, Bit2(v));
    Digit(b1, Bit1(v));
    Digit(b0, Bit0(v));
  }

  lemma Digit(b: int, bit: bool)
    requires 0 <= b <= 1 && bit == (b == 1)
    ensures Num(bit) == b
  {
  }

  lemma NibbleDigits(v: int)
    requires 0 <= v < 16
    ensures v == v % 2 + 2 * (v / 2 % 2) + 4 * (v / 4 % 2) + 8 * (v / 8 % 2)
  {
  }

  // ---- modes ----

  /** SEP sets and REP clears the flags whose bits are one; the width flags cannot be changed in emulation mode, and index
      registers that become narrow lose their high bytes. */
  lemma SetModeMeans(s: Cpu, n: bool, v: bool, m: bool, x: bool, d: bool, i: bool, z: bool, c: bool, on: bool)
    requires Widths(s)
    ensures var t := Step(s, SetMode(MaskOf(n, v, m, x, d, i, z, c), on));
            && t.st.n == (if n then on else s.st.n) && t.st.v == (if v then on else s.st.v)
            && t.st.m == (if m && !s.emul then on else s.st.m) && t.st.x == (if x && !s.emul then on else s.st.x)
            && t.st.d == (if d then on else s.st.d) && t.st.i == (if i then on else s.st.i)
            && t.st.z == (if z then on else s.st.z) && t.st.c == (if c then on else s.st.c)
            && t == s.(st := t.st, x := Fit(s.x, s.emul || t.st.x), y := Fit(s.y, s.emul || t.st.x))
  {
    MaskBits(n, v, m, x, d, i, z, c);
    var mask := MaskOf(n, v, m, x, d, i, z, c);
    MaskedFlags(s.st, s.emul, mask, on);
    assert Step(s, SetMode(mask, on)) == RepSep(s, mask, on) by { ModeStep(s, mask, on); }
    hide Step, Masked, MaskOf, Bit0, Bit1, Bit2, Bit3, Bit4, Bit5, Bit6, Bit7;
  }

  lemma ModeStep(s: Cpu, mask: Byte, on: bool)
    ensures Step(s, SetMode(mask, on)) == RepSep(s, mask, on)
  {
    hide WithIndex, WithAccumulator, WithStack, SetNZ, PushWide, Push, PushWordRaw, Shrunk, Isa65816.Pulled, Above,
      PulledAt, LoadStatus, RawAt, StackUp, RepSep, Xce, Jsr, JsrIndexed, Jsl, Rts, Rtl, Enter, Rti, Move, ResetState;
  }

  lemma MaskedFlags(st: Status, emul: bool, mask: Byte, on: bool)
    ensures var r := Masked(st, emul, mask, on);
            && r.n == (if Bit7(mask) then on else st.n) && r.v == (if Bit6(mask) then on else st.v)
            && r.m == (if Bit5(mask) && !emul then on else st.m) && r.x == (if Bit4(mask) && !emul then on else st.x)
            && r.d == (if Bit3(mask) then on else st.d) && r.i == (if Bit2(mask) then on else st.i)
            && r.z == (if Bit1(mask) then on else st.z) && r.c == (if Bit0(mask) then on else st.c)
  {
    hide Bit0, Bit1, Bit2, Bit3, Bit4, Bit5, Bit6, Bit7;
  }

  lemma MaskBits(n: bool, v: bool, m: bool, x: bool, d: bool, i: bool, z: bool, c: bool)
    ensures var mask := MaskOf(n, v, m, x, d, i, z, c);
            Bit7(mask) == n && Bit6(mask) == v && Bit5(mask) == m && Bit4(mask) == x && Bit3(mask) == d && Bit2(mask) == i
            && Bit1(mask) == z && Bit0(mask) == c
  {
    hide Bit0, Bit1, Bit2, Bit3, Bit4, Bit5, Bit6, Bit7, Num;
    forall b ensures 0 <= Num(b) <= 1 && (Num(b) == 1) == b {
      IsDigit(b);
    }
    SumBits(Num(n), Num(v), Num(m), Num(x), Num(d), Num(i), Num(z), Num(c));
  }

  lemma IsDigit(b: bool)
    ensures 0 <= Num(b) <= 1 && (Num(b) == 1) == b
  {
  }

  function MaskOf(n: bool, v: bool, m: bool, x: bool, d: bool, i: bool, z: bool, c: bool): Byte {
    Num(c) + 2 * Num(z) + 4 * Num(i) + 8 * Num(d) + 16 * Num(x) + 32 * Num(m) + 64 * Num(v) + 128 * Num(n)
  }

  /** XCE: the emulation mode is entered with narrow registers and the stack in page one, the native mode with narrow
      registers; A, the high half of A, the banks and memory stay. */
  lemma ExchangeMeans(s: Cpu)
    requires Widths(s)
    ensures var t := Step(s, ExchangeCarry);
            t.emul == s.st.c && t.st.c == s.emul && (t.emul != s.emul ==> Narrow(t) && t.x == s.x % 256 && t.y == s.y % 256)
            && (t.emul && !s.emul ==> t.sp == 256 + s.sp % 256 && t.st.m == s.st.m)
            && (!t.emul && s.emul ==> t.sp == s.sp && t.st.m && t.st.x)
            && t == s.(emul := t.emul, st := s.st.(c := t.st.c, m := t.st.m, x := t.st.x), x := t.x, y := t.y, sp := t.sp)
  {
  }
}
