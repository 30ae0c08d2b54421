/** What the stack is for: whatever an opening instruction or interrupt saves, the matching closing instruction
    restores, for every stack pointer and to any depth that page one holds. */
module CallReturn {
  import opened Bits
  import opened Isa6510
  import opened OpcodeMatrix
  import opened Cosimulation

  /** Pairs that push and pull the same number of bytes; an NMI may take over a BRK or an IRQ. */
  datatype Bracket = JsrRts | IrqRti(sei: bool, nmi: bool) | NmiRti | BrkRti(nmi: bool) | PhaPla | PhpPlp

  function Size(b: Bracket): int {
    if b == JsrRts then 2 else if b == PhaPla || b == PhpPlp then 1 else 3
  }

  function Opening(b: Bracket): Event {
    match b
    case IrqRti(sei, nmi) => Irq(sei, nmi)
    case NmiRti => Nmi
    case BrkRti(nmi) => Instruction(nmi)
    case _ => Instruction(false)
  }

  predicate Opens(b: Bracket, s: Cpu) {
    match b
    case JsrRts => Opcode(s) == 0x20
    case BrkRti(_) => Opcode(s) == 0x00
    case PhaPla => Opcode(s) == 0x48
    case PhpPlp => Opcode(s) == 0x08
    case IrqRti(sei, _) => !Masked(s.r.st, sei)
    case NmiRti => true
  }

  predicate Closes(b: Bracket, s: Cpu) {
    Opcode(s) == match b
                 case JsrRts => 0x60
                 case PhaPla => 0x68
                 case PhpPlp => 0x28
                 case _ => 0x40
  }

  /** t has the stack pointer of s and the same n bytes above it. */
  predicate Keeps(s: Cpu, t: Cpu, n: int) {
    t.r.sp == s.r.sp && forall k :: 1 <= k <= n ==> Pulled(t, k) == Pulled(s, k)
  }

  /** A piece of program: segments of any events, and brackets with such a piece inside. */
  datatype Walk = Done | Plain(events: seq<Event>, next: Walk) | Nested(b: Bracket, inner: Walk, next: Walk)

  function Events(w: Walk): seq<Event> {
    match w
    case Done => []
    case Plain(events, next) => events + Events(next)
    case Nested(b, inner, next) => Around(b, Events(inner)) + Events(next)
  }

  /** A body between the two ends of a bracket. */
  function Around(b: Bracket, body: seq<Event>): seq<Event> {
    [Opening(b)] + body + [Instruction(false)]
  }

  /** The processor survives these events, and after them as a whole the stack pointer is back and the n bytes above
      it are what they were. */
  predicate Leaves(s: Cpu, events: seq<Event>, n: int) {
    Survives(s, events) && Keeps(s, Run(s, events), n)
  }

  /** From s the processor really takes this walk.  n bytes above the stack pointer are in use: every segment leaves them
      as they were, and everything pushed fits into page one. */
  predicate Takes(w: Walk, s: Cpu, n: nat) {
    match w
    case Done => true
    case Plain(events, next) => Leaves(s, events, n) && Takes(next, Run(s, events), n)
    case Nested(b, inner, next) =>
      var open := Happen(Opening(b), s);
      var close := Run(open, Events(inner));
      Opens(b, s) && n + Size(b) <= 0x100 && Takes(inner, open, n + Size(b)) && Closes(b, close)
      && Takes(next, Step(close, false), n)
  }

  // ---- one bracket ----

  /** Stack positions less than a page apart differ, whatever wraps. */
  lemma Apart(sp: Byte, j: int, k: int)
    requires 0 <= j && 1 <= k && j + k <= 0xff
    ensures U8(sp - j) != U8(sp + k)
  {
    var q := (sp - j) / 0x100;
    assert sp - j == 0x100 * q + U8(sp - j);
  }

  lemma PushKeeps(s: Cpu, v: Byte, n: int)
    requires 0 <= n <= 0xff
    ensures Push(s, v).r.sp == U8(s.r.sp - 1) && Pulled(Push(s, v), 1) == v
    ensures forall k :: 1 <= k <= n ==> Pulled(Push(s, v), k + 1) == Pulled(s, k)
  {
    Mod8(s.r.sp - 1, 1);
    forall k | 1 <= k <= n ensures Pulled(Push(s, v), k + 1) == Pulled(s, k) {
      Mod8(s.r.sp - 1, k + 1);
      Apart(s.r.sp, 0, k);
    }
  }

  /** Where the closing instruction goes on. */
  function Return(b: Bracket, s: Cpu): Word {
    if b.IrqRti? || b.NmiRti? then s.pc else U16(s.pc + 2)
  }

  function SavedStatus(b: Bracket, s: Cpu): Status {
    s.r.st.(b := b.BrkRti? || b.PhpPlp?)
  }

  /** The k-th byte from the top of what the opening pushed. */
  function Saved(b: Bracket, s: Cpu, k: int): Byte {
    match b
    case JsrRts => if k == 1 then Lo(Return(b, s)) else Hi(Return(b, s))
    case PhaPla => s.r.a
    case PhpPlp => Packed(SavedStatus(b, s))
    case _ => if k == 1 then Packed(SavedStatus(b, s)) else if k == 2 then Lo(Return(b, s)) else Hi(Return(b, s))
  }

  predicate Holds(b: Bracket, s: Cpu, t: Cpu) {
    t.r.sp == U8(s.r.sp - Size(b)) && forall k :: 1 <= k <= Size(b) ==> Pulled(t, k) == Saved(b, s, k)
  }

  lemma OpeningCode(b: Bracket, s: Cpu)
    requires Opens(b, s)
    ensures match b
            case JsrRts => Decode(Opcode(s)) == JSR
            case PhaPla => Decode(Opcode(s)) == Implied(PHA)
            case PhpPlp => Decode(Opcode(s)) == Implied(PHP)
            case _ => true
  {
  }

  lemma ClosingCode(b: Bracket, t: Cpu)
    requires Closes(b, t)
    ensures Decode(Opcode(t)) == match b
                                 case JsrRts => RTS
                                 case PhaPla => Implied(PLA)
                                 case PhpPlp => Implied(PLP)
                                 case _ => RTI
  {
  }

  lemma PushWordKeeps(s: Cpu, w: Word, n: int)
    requires 0 <= n <= 0xfe
    ensures PushWord(s, w).r.sp == U8(s.r.sp - 2)
    ensures Pulled(PushWord(s, w), 1) == Lo(w) && Pulled(PushWord(s, w), 2) == Hi(w)
    ensures forall k :: 1 <= k <= n ==> Pulled(PushWord(s, w), k + 2) == Pulled(s, k)
  {
    hide U8, Pulled, Lo, Hi;
    Mod8(s.r.sp - 1, -1);
    PushKeeps(s, Hi(w), n);
    var t := Push(s, Hi(w));
    PushKeeps(t, Lo(w), n + 1);
    forall k | 1 <= k <= n ensures Pulled(PushWord(s, w), k + 2) == Pulled(s, k) {
      assert Pulled(Push(t, Lo(w)), (k + 1) + 1) == Pulled(t, k + 1);
    }
    assert Pulled(Push(t, Lo(w)), 1 + 1) == Pulled(t, 1);
  }

  lemma SameStack(s: Cpu, t: Cpu)
    requires s.mem == t.mem && s.r.sp == t.r.sp
    ensures forall k :: Pulled(s, k) == Pulled(t, k)
  {
  }

  lemma TrapPushes(s: Cpu, ret: Word, brk: bool, vector: Word, n: int)
    requires 0 <= n <= 0xfd
    ensures var o := Trap(s, ret, brk, vector);
            o.r.sp == U8(s.r.sp - 3)
            && Pulled(o, 1) == Packed(s.r.st.(b := brk)) && Pulled(o, 2) == Lo(ret) && Pulled(o, 3) == Hi(ret)
            && forall k :: 1 <= k <= n ==> Pulled(o, k + 3) == Pulled(s, k)
  {
    hide U8, Pulled, PushWord, Packed, Lo, Hi, AbsWord;
    var s1 := s.(r := s.r.(st := s.r.st.(b := brk)), clk := s.clk + 7);
    var s2 := PushWord(s1, ret);
    var s3 := Push(s2, Packed(s1.r.st));
    var o := Trap(s, ret, brk, vector);
    SameStack(s, s1);
    PushWordKeeps(s1, ret, n);
    PushKeeps(s2, Packed(s1.r.st), n + 2);
    SameStack(s3, o);
    Mod8(s.r.sp - 2, -1);
    assert Pulled(s3, 1 + 1) == Pulled(s2, 1) && Pulled(s3, 2 + 1) == Pulled(s2, 2);
    forall k | 1 <= k <= n ensures Pulled(o, k + 3) == Pulled(s, k) {
      assert Pulled(s3, (k + 2) + 1) == Pulled(s2, k + 2);
    }
  }

  /** s has n bytes in use; o has the bytes that the opening saves on top of them. */
  ghost predicate OpensWith(b: Bracket, s: Cpu, o: Cpu, n: nat) {
    Holds(b, s, o) && forall k :: 1 <= k <= n ==> Pulled(o, k + Size(b)) == Pulled(s, k)
  }

  lemma JsrPushes(s: Cpu)
    requires Opens(JsrRts, s)
    ensures var o, p := Step(s, false), PushWord(s, U16(s.pc + 2));
            o.mem == p.mem && o.r.sp == p.r.sp
  {
    hide U16, Decode, Opens, PushWord, CallEffect;
    OpeningCode(JsrRts, s);
    CallPushes(s, Peek(s.mem, U16(s.pc + 1)));
  }

  lemma CallPushes(s: Cpu, lo: Byte)
    ensures var o, p := CallEffect(s, lo), PushWord(s, U16(s.pc + 2));
            o.mem == p.mem && o.r.sp == p.r.sp
  {
    hide U16, U8, Lo, Hi;
  }

  lemma CallOpens(s: Cpu, n: nat)
    requires Opens(JsrRts, s) && n + 2 <= 0x100
    ensures OpensWith(JsrRts, s, Step(s, false), n)
  {
    hide U8, U16, Pulled, Lo, Hi, Opens, PushWord, Step;
    JsrPushes(s);
    PushWordKeeps(s, U16(s.pc + 2), n);
    SameStack(PushWord(s, U16(s.pc + 2)), Step(s, false));
  }

  lemma SaveOpens(b: Bracket, s: Cpu, n: nat)
    requires (b == PhaPla || b == PhpPlp) && Opens(b, s) && n + 1 <= 0x100
    ensures OpensWith(b, s, Step(s, false), n)
  {
    hide U8, U16, Pulled, Push, Packed, Decode, Opens;
    OpeningCode(b, s);
    var v := if b == PhaPla then s.r.a else Packed(s.r.st.(b := true));
    PushKeeps(s, v, n);
    SameStack(Push(s, v), Step(s, false));
  }

  lemma TrapOpens(b: Bracket, s: Cpu, n: nat)
    requires (b.IrqRti? || b.NmiRti? || b.BrkRti?) && Opens(b, s) && n + 3 <= 0x100
    ensures OpensWith(b, s, Happen(Opening(b), s), n)
  {
    hide U8, U16, Pulled, Packed, Lo, Hi, Trap, Executed, Masked;
    var vector := IrqVector(b.NmiRti? || b.nmi);
    if b.BrkRti? {
      BrkExecuted(b.nmi, s, Peek(s.mem, U16(s.pc + 1)), Peek(s.mem, U16(s.pc + 2)));
    }
    TrapPushes(s, Return(b, s), b.BrkRti?, vector, n);
  }

  lemma Opened(b: Bracket, s: Cpu, n: nat)
    requires Opens(b, s) && n + Size(b) <= 0x100
    ensures OpensWith(b, s, Happen(Opening(b), s), n)
  {
    hide OpensWith, Step, Opens;
    if b == JsrRts {
      CallOpens(s, n);
    } else if b == PhaPla || b == PhpPlp {
      SaveOpens(b, s, n);
    } else {
      TrapOpens(b, s, n);
    }
  }

  lemma PackedRoundTrip(st: Status)
    ensures Unpacked(Packed(st)) == st
  {
    hide Bit0, Bit1, Bit2, Bit3, Bit4, Bit5, Bit6, Bit7;
    ByteBits(st.n, st.v, true, st.b, st.d, st.i, st.z, st.c);
  }

  /** What the closing instruction makes of t, given what the opening found in s. */
  predicate Restored(b: Bracket, s: Cpu, t: Cpu, u: Cpu) {
    match b
    case JsrRts => u.pc == U16(s.pc + 3) && u.r == t.r.(sp := s.r.sp)
    case PhaPla => u.pc == U16(t.pc + 1) && u.r == SetA(t.r, s.r.a).(sp := s.r.sp)
    case PhpPlp => u.pc == U16(t.pc + 1) && u.r == t.r.(sp := s.r.sp, st := SavedStatus(b, s))
    case _ => u.pc == Return(b, s) && u.r == t.r.(sp := s.r.sp, st := SavedStatus(b, s))
  }

  lemma Closed(b: Bracket, s: Cpu, t: Cpu)
    requires Holds(b, s, t) && Closes(b, t)
    ensures var u := Step(t, false); Restored(b, s, t, u) && u.mem == t.mem && u.r.sp == s.r.sp
  {
    hide U8, U16, Pulled, Packed, Unpacked, Decode, Lo, Hi, Closes;
    ClosingCode(b, t);
    PackedRoundTrip(SavedStatus(b, s));
    Mod8(s.r.sp - Size(b), Size(b));
    Mod8Byte(s.r.sp);
    var w := Return(b, s);
    assert Pair(Lo(w), Hi(w)) == w by { WordParts(w); }
    Mod16(s.pc + 2, 1);
    Mod16(t.pc, 1);
  }

  // ---- whole walks ----

  lemma AroundRuns(b: Bracket, s: Cpu, body: seq<Event>)
    requires Opens(b, s) && Survives(Happen(Opening(b), s), body)
    ensures var t := Run(Happen(Opening(b), s), body);
            !IsJam(Opcode(t)) ==> Survives(s, Around(b, body)) && Run(s, Around(b, body)) == Step(t, false)
  {
    hide Happen, IsJam, Opcode, Opens;
    NoJams(b, s);
    var o := Happen(Opening(b), s);
    assert Around(b, body)[1..] == body + [Instruction(false)];
    RunSplit(o, body, [Instruction(false)]);
    SurvivesSplit(o, body, [Instruction(false)]);
    var t := Run(o, body);
    HappenStep(t);
    assert [Instruction(false)][1..] == [];
    assert Survives(Step(t, false), []) && Run(Step(t, false), []) == Step(t, false);
  }

  lemma HappenStep(s: Cpu)
    ensures Happen(Instruction(false), s) == Step(s, false)
  {
  }

  lemma NoJams(b: Bracket, s: Cpu)
    ensures Opens(b, s) ==> !Jams(Opening(b), s)
    ensures Closes(b, s) ==> !IsJam(Opcode(s))
  {
  }

  /** Whatever happens between the two ends of a bracket, if it brings the stack pointer back and leaves alone what was
      pushed, the closing end restores what the opening end saved.  The n bytes in use before stay in use. */
  lemma BracketRestores(b: Bracket, body: seq<Event>, s: Cpu, n: nat)
    requires var o := Happen(Opening(b), s);
             Opens(b, s) && n + Size(b) <= 0x100 && Leaves(o, body, n + Size(b)) && Closes(b, Run(o, body))
    ensures var t := Run(Happen(Opening(b), s), body);
            Leaves(s, Around(b, body), n) && Run(s, Around(b, body)) == Step(t, false)
            && Restored(b, s, t, Run(s, Around(b, body)))
  {
    hide Happen, Opens, Closes, Pulled, Step, Run, Survives, Restored, IsJam, U8, Around;
    var o := Happen(Opening(b), s);
    var t := Run(o, body);
    Opened(b, s, n);
    NoJams(b, t);
    AroundRuns(b, s, body);
    Closed(b, s, t);
    BytesAbove(s, o, t, n, Size(b));
  }

  /** Bytes that survive above a longer stack are above the shorter one after the pulls. */
  lemma BytesAbove(s: Cpu, o: Cpu, t: Cpu, n: nat, size: nat)
    requires o.r.sp == U8(s.r.sp - size) && Keeps(o, t, n + size)
    requires forall k :: 1 <= k <= n ==> Pulled(o, k + size) == Pulled(s, k)
    ensures forall u: Cpu :: u.mem == t.mem && u.r.sp == s.r.sp ==> Keeps(s, u, n)
  {
    forall u: Cpu, k | u.mem == t.mem && u.r.sp == s.r.sp && 1 <= k <= n ensures Pulled(u, k) == Pulled(s, k) {
      Mod8(s.r.sp - size, k + size);
      assert Pulled(t, k + size) == Pulled(o, k + size);
    }
  }

  /** What two pieces leave alone one after the other they leave alone together. */
  lemma LeavesBoth(s: Cpu, first: seq<Event>, rest: seq<Event>, n: int)
    requires Leaves(s, first, n) && Leaves(Run(s, first), rest, n)
    ensures Leaves(s, first + rest, n)
  {
    hide Pulled, Run, Survives;
    RunSplit(s, first, rest);
    SurvivesSplit(s, first, rest);
  }

  /** After a walk the stack pointer and the bytes in use are those at its start, and nothing jammed; so a walk may be
      the body of a bracket. */
  lemma {:induction false} WalkKeeps(w: Walk, s: Cpu, n: nat)
    requires Takes(w, s, n)
    ensures Leaves(s, Events(w), n)
    decreases w
  {
    hide Happen, Opens, Closes, Pulled, Step, Restored, IsJam, Around, Leaves, Run;
    match w
    case Done => assert Leaves(s, [], n) by { LeavesNothing(s, n); }
    case Plain(events, next) =>
      WalkKeeps(next, Run(s, events), n);
      LeavesBoth(s, events, Events(next), n);
    case Nested(b, inner, next) =>
      WalkKeeps(inner, Happen(Opening(b), s), n + Size(b));
      BracketRestores(b, Events(inner), s, n);
      WalkKeeps(next, Run(s, Around(b, Events(inner))), n);
      LeavesBoth(s, Around(b, Events(inner)), Events(next), n);
  }

  lemma LeavesNothing(s: Cpu, n: int)
    ensures Leaves(s, [], n)
  {
  }
}
