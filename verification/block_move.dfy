/** MVN and MVP of the 65816: one execution copies one byte, and the instruction repeats itself until the count in C
    has run out. */
module BlockMoves {
  import opened Bits
  import opened Isa65816
  import opened Modes65816

  /** An index of the width in force. */
  function Wrapped(v: int, narrow: bool): Word {
    if narrow then U8(v) else U16(v)
  }

  /** The index after k steps. */
  function Along(v: int, step: int, k: int, narrow: bool): Word {
    Wrapped(if step == 1 then v + k else v - k, narrow)
  }

  function At(bank: Byte, index: int): int {
    index + 0x10000 * bank
  }

  /** The copy, byte after byte. */
  function Copied(mem: Memory, src: Byte, x: Word, dst: Byte, y: Word, step: int, narrow: bool, n: nat): Memory
    decreases n
  {
    if n == 0 then mem
    else Copied(mem[At(dst, y) := Peek(mem, At(src, x))], src, Along(x, step, 1, narrow), dst, Along(y, step, 1, narrow),
                step, narrow, n - 1)
  }

  /** Where the next execution fetches its j-th operand byte: the last one wraps in the bank, those before do not. */
  function OperandPc(s: Cpu, j: int): int {
    if s.c == 0 then U16(s.pc + j) else s.pc + j
  }

  function Destination(s: Cpu): Byte {
    Fetch(s, OperandPc(s, 1))
  }

  function SourceBank(s: Cpu): Byte {
    Fetch(s, OperandPc(s, 2))
  }

  /** MVN or MVP. */
  predicate IsMove(s: Cpu) {
    Fetch(s, s.pc) == 0x54 || Fetch(s, s.pc) == 0x44
  }

  /** MVN counts up, MVP down. */
  function StepOf(s: Cpu): int {
    if Fetch(s, s.pc) == 0x54 then 1 else -1
  }

  /** One turn of the main loop, as far as block moves go: the opcode is fetched anew and executed. */
  function Turn(s: Cpu): Cpu {
    if IsMove(s) then Move(s, StepOf(s)) else s
  }

  function Turns(s: Cpu, n: nat): Cpu {
    if n == 0 then s else Turn(Turns(s, n - 1))
  }

  /** Where the k-th execution takes its byte and where it puts it. */
  function Origin(s: Cpu, k: nat): int {
    At(SourceBank(s), Along(s.x, StepOf(s), k, Narrow(s)))
  }

  function Target(s: Cpu, k: nat): int {
    At(Destination(s), Along(s.y, StepOf(s), k, Narrow(s)))
  }

  /** Memory after n bytes. */
  function MemoryAfter(s: Cpu, n: nat): Memory {
    Copied(s.mem, SourceBank(s), s.x, Destination(s), s.y, StepOf(s), Narrow(s), n)
  }

  /** What n executions of the instruction at the program counter make of s. */
  function After(s: Cpu, n: nat): Cpu
    requires n <= s.c + 1
  {
    s.(c := if n <= s.c then s.c - n else 0xffff, x := Along(s.x, StepOf(s), n, Narrow(s)),
       y := Along(s.y, StepOf(s), n, Narrow(s)), dbr := if n == 0 then s.dbr else Destination(s),
       pc := if n <= s.c then s.pc else U16(s.pc + 3), mem := MemoryAfter(s, n))
  }

  /** A block move in a processor with proper widths. */
  predicate Starts(s: Cpu) {
    Widths(s) && IsMove(s)
  }

  /** The next execution of u finds the instruction of s. */
  predicate SameCode(s: Cpu, u: Cpu) {
    u.pc == s.pc && u.pbr == s.pbr
    && Fetch(u, u.pc) == Fetch(s, s.pc) && Destination(u) == Destination(s) && SourceBank(u) == SourceBank(s)
  }

  /** At no point of the sequential copy, up to the last execution, is there another instruction. */
  ghost predicate Intact(s: Cpu) {
    forall k :: 0 <= k <= s.c ==> SameCode(s, After(s, k))
  }

  /** The three bytes of the instruction, as all executions but the last see them. */
  predicate InCode(s: Cpu, a: int) {
    At(s.pbr, s.pc) <= a <= At(s.pbr, s.pc + 2)
  }

  /** The k-th byte, if it is stored over address a, is the one that is there. */
  predicate SameByte(s: Cpu, k: nat, a: int) {
    Target(s, k) == a ==> Peek(MemoryAfter(s, k), Origin(s, k)) == Peek(s.mem, a)
  }

  // ---- indices ----

  lemma AlongAgain(v: int, step: int, k: int, narrow: bool)
    requires step == 1 || step == -1
    ensures Along(Along(v, step, 1, narrow), step, k, narrow) == Along(v, step, k + 1, narrow)
  {
    Mod16(if step == 1 then v + 1 else v - 1, if step == 1 then k else -k);
    Mod8(if step == 1 then v + 1 else v - 1, if step == 1 then k else -k);
  }

  lemma AlongMore(v: int, step: int, k: int, narrow: bool)
    requires step == 1 || step == -1
    ensures Along(Along(v, step, k, narrow), step, 1, narrow) == Along(v, step, k + 1, narrow)
  {
    Mod16(if step == 1 then v + k else v - k, step);
    Mod8(if step == 1 then v + k else v - k, step);
  }

  lemma AlongZero(v: Word, step: int, narrow: bool)
    requires narrow ==> v <= 0xff
    ensures Along(v, step, 0, narrow) == v
  {
  }

  // ---- one execution ----

  lemma MoveFields(s: Cpu, step: int)
    requires (step == 1 || step == -1) && Widths(s)
    ensures var t := Move(s, step);
            t.c == (if s.c == 0 then 0xffff else s.c - 1) && t.pc == (if s.c == 0 then U16(s.pc + 3) else s.pc)
            && t.x == Along(s.x, step, 1, Narrow(s)) && t.y == Along(s.y, step, 1, Narrow(s)) && t.dbr == Destination(s)
            && t.mem == s.mem[At(Destination(s), s.y) := Peek(s.mem, At(SourceBank(s), s.x))]
            && t == s.(c := t.c, x := t.x, y := t.y, dbr := t.dbr, pc := t.pc, mem := t.mem)
  {
    LowOfWord(s.x + step);
    LowOfWord(s.y + step);
  }

  lemma MoveOnce(s: Cpu, step: int)
    requires (step == 1 || step == -1) && Widths(s)
    ensures Move(s, step)
         == s.(c := if s.c == 0 then 0xffff else s.c - 1, x := Along(s.x, step, 1, Narrow(s)),
               y := Along(s.y, step, 1, Narrow(s)), dbr := Destination(s), pc := if s.c == 0 then U16(s.pc + 3) else s.pc,
               mem := s.mem[At(Destination(s), s.y) := Peek(s.mem, At(SourceBank(s), s.x))])
  {
    hide Move, Along, At, Destination, SourceBank, U16;
    MoveFields(s, step);
  }

  lemma LowOfWord(v: int)
    ensures Lo(U16(v)) == U8(v)
  {
  }

  /** The next byte of the copy. */
  lemma {:induction false} CopiedMore(mem: Memory, src: Byte, x: Word, dst: Byte, y: Word, step: int, narrow: bool, n: nat)
    requires (step == 1 || step == -1) && (narrow ==> x <= 0xff && y <= 0xff)
    ensures var m := Copied(mem, src, x, dst, y, step, narrow, n);
            Copied(mem, src, x, dst, y, step, narrow, n + 1)
            == m[At(dst, Along(y, step, n, narrow)) := Peek(m, At(src, Along(x, step, n, narrow)))]
    decreases n
  {
    hide Along, Peek, At;
    var next := mem[At(dst, y) := Peek(mem, At(src, x))];
    var x1, y1 := Along(x, step, 1, narrow), Along(y, step, 1, narrow);
    if n == 0 {
      AlongZero(x, step, narrow);
      AlongZero(y, step, narrow);
      assert Copied(next, src, x1, dst, y1, step, narrow, 0) == next;
    } else {
      AlongNarrow(x, step, narrow);
      AlongNarrow(y, step, narrow);
      CopiedMore(next, src, x1, dst, y1, step, narrow, n - 1);
      AlongAgain(x, step, n - 1, narrow);
      AlongAgain(y, step, n - 1, narrow);
    }
  }

  // ---- the whole move ----

  /** One more execution, when the instruction is still what it was. */
  lemma AfterMore(s: Cpu, k: nat)
    requires Starts(s) && k <= s.c && SameCode(s, After(s, k))
    ensures Turn(After(s, k)) == After(s, k + 1)
  {
    hide Along, Move, Widths, Copied, At, U16, Narrow;
    var u := After(s, k);
    CodeMeans(s, u);
    AfterWidths(s, k);
    var step := StepOf(s);
    MoveOnce(u, step);
    AlongMore(s.x, step, k, Narrow(s));
    AlongMore(s.y, step, k, Narrow(s));
    WidthsKnown(s);
    CopiedMore(s.mem, SourceBank(s), s.x, Destination(s), s.y, step, Narrow(s), k);
  }

  lemma CodeMeans(s: Cpu, u: Cpu)
    requires SameCode(s, u)
    ensures Fetch(u, u.pc) == Fetch(s, s.pc) && Destination(u) == Destination(s) && SourceBank(u) == SourceBank(s)
  {
  }

  lemma AfterWidths(s: Cpu, k: nat)
    requires Widths(s) && k <= s.c + 1
    ensures Widths(After(s, k)) && Narrow(After(s, k)) == Narrow(s)
  {
  }

  lemma WidthsKnown(s: Cpu)
    requires Widths(s)
    ensures Narrow(s) ==> s.x <= 0xff && s.y <= 0xff
  {
  }

  /** As long as the instruction is what it was, the main loop repeats it. */
  lemma {:induction false} TurnsWhile(s: Cpu, k: nat)
    requires Starts(s) && k <= s.c + 1
    requires forall j :: 0 <= j < k ==> SameCode(s, After(s, j))
    ensures Turns(s, k) == After(s, k)
    decreases k
  {
    hide Along, Turn, SameCode, Widths, IsMove, StepOf, Copied;
    if k == 0 {
      WidthsKnown(s);
      AlongZero(s.x, StepOf(s), Narrow(s));
      AlongZero(s.y, StepOf(s), Narrow(s));
      CopiedNothing(s);
    } else {
      TurnsWhile(s, k - 1);
      AfterMore(s, k - 1);
    }
  }

  lemma CopiedNothing(s: Cpu)
    ensures MemoryAfter(s, 0) == s.mem
  {
  }

  /** From C = n the instruction is executed n + 1 times: before that the program counter stays on the opcode, which is
      fetched again each time.  In the end C is $FFFF, X and Y have moved n + 1 steps modulo their width, the data bank
      is the destination and memory is the sequential copy. */
  lemma {:induction false} MoveRuns(s: Cpu, k: nat)
    requires Starts(s) && Intact(s) && k <= s.c + 1
    ensures Turns(s, k) == After(s, k) && (k <= s.c ==> SameCode(s, Turns(s, k)))
  {
    hide Along, SameCode, Starts, After, Turn;
    TurnsWhile(s, k);
  }

  /** Each of the n + 1 turns finds the instruction with which the move began. */
  ghost predicate Repeats(s: Cpu) {
    forall k :: 0 <= k <= s.c ==> SameCode(s, Turns(s, k))
  }

  /** That is the exact condition. */
  lemma MoveRunsExactly(s: Cpu)
    requires Starts(s)
    ensures Intact(s) <==> Repeats(s)
  {
    hide Along, SameCode, Starts, Turns, After;
    if Intact(s) {
      forall k | 0 <= k <= s.c ensures SameCode(s, Turns(s, k)) {
        MoveRuns(s, k);
      }
    }
    if Repeats(s) {
      forall k | 0 <= k <= s.c ensures SameCode(s, After(s, k)) {
        SameFound(s, k);
      }
    }
  }

  lemma {:induction false} SameFound(s: Cpu, k: nat)
    requires Starts(s) && k <= s.c && forall j :: 0 <= j <= k ==> SameCode(s, Turns(s, j))
    ensures SameCode(s, After(s, k))
    decreases k
  {
    hide Along, SameCode, Starts, Turn;
    forall j | 0 <= j < k ensures SameCode(s, After(s, j)) {
      SameFound(s, j);
    }
    TurnsWhile(s, k);
  }

  // ---- which moves leave their instruction alone ----

  /** The bytes that all executions but the last see. */
  predicate SameNear(s: Cpu, m: Memory) {
    Peek(m, At(s.pbr, s.pc)) == Peek(s.mem, At(s.pbr, s.pc))
    && Peek(m, At(s.pbr, s.pc + 1)) == Peek(s.mem, At(s.pbr, s.pc + 1))
    && Peek(m, At(s.pbr, s.pc + 2)) == Peek(s.mem, At(s.pbr, s.pc + 2))
  }

  /** What the last execution sees. */
  predicate SameLast(s: Cpu, m: Memory) {
    Peek(m, At(s.pbr, s.pc)) == Peek(s.mem, At(s.pbr, s.pc))
    && Peek(m, At(s.pbr, U16(s.pc + 1))) == Destination(s) && Peek(m, At(s.pbr, U16(s.pc + 2))) == SourceBank(s)
  }

  lemma CodeAt(s: Cpu, k: nat)
    requires s.c > 0 && k <= s.c
    ensures SameCode(s, After(s, k)) <==> if k < s.c then SameNear(s, MemoryAfter(s, k)) else SameLast(s, MemoryAfter(s, k))
  {
    hide Along, Copied;
  }

  lemma NextByte(s: Cpu, k: nat)
    requires Starts(s)
    ensures MemoryAfter(s, k + 1) == MemoryAfter(s, k)[Target(s, k) := Peek(MemoryAfter(s, k), Origin(s, k))]
  {
    hide Along, Widths, At, IsMove;
    WidthsKnown(s);
    CopiedMore(s.mem, SourceBank(s), s.x, Destination(s), s.y, StepOf(s), Narrow(s), k);
  }

  /** One more byte leaves an address what it was exactly if it is stored elsewhere or changes nothing. */
  lemma ByteStays(s: Cpu, k: nat, a: int)
    requires Starts(s) && Peek(MemoryAfter(s, k), a) == Peek(s.mem, a)
    ensures Peek(MemoryAfter(s, k + 1), a) == Peek(s.mem, a) <==> SameByte(s, k, a)
  {
    hide MemoryAfter, Target, Origin, Starts;
    NextByte(s, k);
  }

  predicate SameOperandBytes(s: Cpu, k: nat) {
    SameByte(s, k, At(s.pbr, s.pc + 1)) && SameByte(s, k, At(s.pbr, s.pc + 2))
  }

  /** No byte but the last two is stored over the instruction with another value, nor the last but one over the opcode. */
  ghost predicate Calm(s: Cpu) {
    (forall k :: 0 <= k < s.c ==> SameByte(s, k, At(s.pbr, s.pc)))
    && forall k :: 0 <= k < s.c - 1 ==> SameOperandBytes(s, k)
  }

  lemma {:induction false} CalmKeeps(s: Cpu, k: nat)
    requires Starts(s) && Calm(s) && k < s.c
    ensures SameNear(s, MemoryAfter(s, k))
    decreases k
  {
    hide MemoryAfter, SameByte, Starts;
    if k == 0 {
      CopiedNothing(s);
    } else {
      CalmKeeps(s, k - 1);
      assert SameOperandBytes(s, k - 1);
      ByteStays(s, k - 1, At(s.pbr, s.pc));
      ByteStays(s, k - 1, At(s.pbr, s.pc + 1));
      ByteStays(s, k - 1, At(s.pbr, s.pc + 2));
    }
  }

  /** A move of more than one byte leaves its instruction alone exactly if the bytes before the last two do, the last but
      one leaves the opcode alone, and the last execution, which may look in another place, finds the same operands. */
  lemma IntactExactly(s: Cpu)
    requires Starts(s) && s.c > 0
    ensures Intact(s) <==> Calm(s) && SameLast(s, MemoryAfter(s, s.c))
  {
    hide MemoryAfter, SameByte, Starts, SameCode, After;
    forall k | 0 <= k <= s.c
      ensures SameCode(s, After(s, k))
              <==> if k < s.c then SameNear(s, MemoryAfter(s, k)) else SameLast(s, MemoryAfter(s, k))
    {
      CodeAt(s, k);
    }
    if Calm(s) && SameLast(s, MemoryAfter(s, s.c)) {
      forall k | 0 <= k < s.c ensures SameNear(s, MemoryAfter(s, k)) {
        CalmKeeps(s, k);
      }
    }
    if Intact(s) {
      assert SameCode(s, After(s, s.c));
      forall k | 0 <= k < s.c ensures SameByte(s, k, At(s.pbr, s.pc)) {
        assert SameCode(s, After(s, k)) && SameCode(s, After(s, k + 1));
        ByteStays(s, k, At(s.pbr, s.pc));
      }
      forall k | 0 <= k < s.c - 1
        ensures SameOperandBytes(s, k)
      {
        assert SameCode(s, After(s, k)) && SameCode(s, After(s, k + 1));
        ByteStays(s, k, At(s.pbr, s.pc + 1));
        ByteStays(s, k, At(s.pbr, s.pc + 2));
      }
    }
  }

  lemma LastInBank(s: Cpu, m: Memory)
    requires s.c > 0 && s.pc + 2 <= 0xffff
    ensures SameLast(s, m) <==> SameNear(s, m)
  {
  }

  /** For an instruction inside its bank: no byte but the last is stored over it with another value. */
  lemma InsideBank(s: Cpu)
    requires Starts(s) && s.c > 0 && s.pc + 2 <= 0xffff
    ensures Intact(s) <==> forall k, a :: 0 <= k < s.c && InCode(s, a) ==> SameByte(s, k, a)
  {
    hide MemoryAfter, SameByte, Starts, Intact, SameLast, InCode;
    IntactExactly(s);
    LastInBank(s, MemoryAfter(s, s.c));
    var n := s.c - 1;
    ThreeBytes(s);
    if Calm(s) {
      CalmKeeps(s, n);
      ByteStays(s, n, At(s.pbr, s.pc));
      ByteStays(s, n, At(s.pbr, s.pc + 1));
      ByteStays(s, n, At(s.pbr, s.pc + 2));
    }
    if Intact(s) {
      forall k, a | 0 <= k < s.c && InCode(s, a) ensures SameByte(s, k, a) {
        assert k < n ==> SameOperandBytes(s, k);
      }
    }
    if forall k, a :: 0 <= k < s.c && InCode(s, a) ==> SameByte(s, k, a) {
      forall k | 0 <= k < s.c ensures SameByte(s, k, At(s.pbr, s.pc)) && SameOperandBytes(s, k) {
      }
      assert Calm(s);
    }
  }

  lemma ThreeBytes(s: Cpu)
    ensures forall a :: InCode(s, a) <==> a == At(s.pbr, s.pc) || a == At(s.pbr, s.pc + 1) || a == At(s.pbr, s.pc + 2)
  {
  }

  /** An instruction across the end of its bank that nothing is stored over: the last execution looks for its source bank
      at the start of the bank, where something else may be. */
  lemma AcrossBank(s: Cpu)
    requires Starts(s) && s.c > 0 && s.pc + 2 > 0xffff
    requires forall k :: 0 <= k < s.c ==> Target(s, k) != At(s.pbr, U16(s.pc + 2))
    requires Peek(s.mem, At(s.pbr, U16(s.pc + 2))) != SourceBank(s)
    ensures !Intact(s) && !Repeats(s)
  {
    hide SameCode, After, At, IsMove;
    WidthsKnown(s);
    forall k | 0 <= k < s.c
      ensures At(Destination(s), Along(s.y, StepOf(s), k, Narrow(s))) != At(s.pbr, U16(s.pc + 2))
    {
      assert Target(s, k) != At(s.pbr, U16(s.pc + 2));
    }
    CopiedElsewhere(s.mem, SourceBank(s), s.x, Destination(s), s.y, StepOf(s), Narrow(s), s.c, At(s.pbr, U16(s.pc + 2)));
    assert !SameLast(s, MemoryAfter(s, s.c));
    CodeAt(s, s.c);
    MoveRunsExactly(s);
  }

  /** A move that stores another opcode over its own: the main loop finds that one, with the rest of the move undone. */
  lemma MoveOverItself(s: Cpu)
    requires Starts(s) && s.c > 0 && At(Destination(s), s.y) == At(s.pbr, s.pc)
    requires Peek(s.mem, At(SourceBank(s), s.x)) != 0x54 && Peek(s.mem, At(SourceBank(s), s.x)) != 0x44
    ensures !Intact(s) && Turns(s, 1).pc == s.pc && Turns(s, 1).c == s.c - 1 && !IsMove(Turns(s, 1))
    ensures Fetch(Turns(s, 1), s.pc) == Peek(s.mem, At(SourceBank(s), s.x))
  {
    hide Turns, Target, Origin, MemoryAfter, Widths;
    FirstMove(s);
    MoveRunsExactly(s);
    OneTurn(s);
  }

  lemma OneTurn(s: Cpu)
    requires s.c > 0
    ensures Repeats(s) ==> SameCode(s, Turns(s, 1))
  {
    hide Turns, SameCode;
  }

  /** MVP at $1000 with C = 1, X = $3000 and Y = $1000, a NOP at $3000. */
  function MoveOfNop(): Cpu {
    Cpu(1, 0x3000, 0x1000, 0x1ff, 0, 0, 0, 0x1000, Status(false, false, false, false, false, false, false, false), false,
        map[0x1000 := 0x44, 0x1001 := 0, 0x1002 := 0, 0x3000 := 0xea])
  }

  lemma MoveOfNopFacts()
    ensures var s := MoveOfNop();
            s.c == 1 && s.x == 0x3000 && s.y == 0x1000 && s.pc == 0x1000 && s.pbr == 0 && !s.emul && !s.st.x
            && Fetch(s, 0x1000) == 0x44 && Fetch(s, 0x1001) == 0 && Fetch(s, 0x1002) == 0 && Peek(s.mem, 0x3000) == 0xea
  {
  }

  lemma MoveOfNopFails()
    ensures var s := MoveOfNop();
            Starts(s) && !Intact(s)
            && Turns(s, 1).pc == 0x1000 && Turns(s, 1).c == 0 && Fetch(Turns(s, 1), 0x1000) == 0xea && !IsMove(Turns(s, 1))
  {
    hide MoveOfNop, Turns, Intact, Fetch, Peek;
    MoveOfNopFacts();
    MoveOverItself(MoveOfNop());
  }

  lemma FirstMove(s: Cpu)
    requires Starts(s)
    ensures var m := s.mem[At(Destination(s), s.y) := Peek(s.mem, At(SourceBank(s), s.x))];
            Turns(s, 1).mem == m && Turns(s, 1).pbr == s.pbr
            && Turns(s, 1).c == (if s.c == 0 then 0xffff else s.c - 1)
            && Turns(s, 1).pc == (if s.c == 0 then U16(s.pc + 3) else s.pc)
            && Target(s, 0) == At(Destination(s), s.y) && Origin(s, 0) == At(SourceBank(s), s.x)
  {
    hide Along, Move, At, U16, Narrow;
    WidthsKnown(s);
    MoveOnce(s, StepOf(s));
    AlongZero(s.x, StepOf(s), Narrow(s));
    AlongZero(s.y, StepOf(s), Narrow(s));
    assert Turns(s, 0) == s;
  }

  // ---- what the sequential copy is ----

  /** A byte that is no destination stays as it is. */
  lemma {:induction false} CopiedElsewhere(mem: Memory, src: Byte, x: Word, dst: Byte, y: Word, step: int, narrow: bool,
                                           n: nat, a: int)
    requires (step == 1 || step == -1) && (narrow ==> y <= 0xff)
    requires forall j :: 0 <= j < n ==> At(dst, Along(y, step, j, narrow)) != a
    ensures Peek(Copied(mem, src, x, dst, y, step, narrow, n), a) == Peek(mem, a)
    decreases n
  {
    if n > 0 {
      var next := mem[At(dst, y) := Peek(mem, At(src, x))];
      AlongZero(y, step, narrow);
      assert At(dst, Along(y, step, 0, narrow)) != a;
      var x1, y1 := Along(x, step, 1, narrow), Along(y, step, 1, narrow);
      forall j | 0 <= j < n - 1 ensures At(dst, Along(y1, step, j, narrow)) != a {
        AlongAgain(y, step, j, narrow);
        assert At(dst, Along(y, step, j + 1, narrow)) != a;
      }
      CopiedElsewhere(next, src, x1, dst, y1, step, narrow, n - 1, a);
    }
  }

  /** The k-th byte arrives unchanged if no earlier byte was stored over its source and no later one over its
      destination. */
  lemma {:induction false} CopiedByte(mem: Memory, src: Byte, x: Word, dst: Byte, y: Word, step: int, narrow: bool,
                                      n: nat, k: nat)
    requires (step == 1 || step == -1) && k < n && (narrow ==> x <= 0xff && y <= 0xff)
    requires forall j :: 0 <= j < k ==> At(dst, Along(y, step, j, narrow)) != At(src, Along(x, step, k, narrow))
    requires forall j :: k < j < n ==> Along(y, step, j, narrow) != Along(y, step, k, narrow)
    ensures Peek(Copied(mem, src, x, dst, y, step, narrow, n), At(dst, Along(y, step, k, narrow)))
         == Peek(mem, At(src, Along(x, step, k, narrow)))
    decreases n
  {
    hide Along;
    var next := mem[At(dst, y) := Peek(mem, At(src, x))];
    AlongZero(x, step, narrow);
    AlongZero(y, step, narrow);
    AlongNarrow(x, step, narrow);
    AlongNarrow(y, step, narrow);
    var x1, y1 := Along(x, step, 1, narrow), Along(y, step, 1, narrow);
    forall j: int ensures Along(y1, step, j, narrow) == Along(y, step, j + 1, narrow) {
      AlongAgain(y, step, j, narrow);
    }
    if k == 0 {
      forall j | 0 <= j < n - 1 ensures At(dst, Along(y1, step, j, narrow)) != At(dst, y) {
        assert Along(y, step, j + 1, narrow) != Along(y, step, 0, narrow);
      }
      CopiedElsewhere(next, src, x1, dst, y1, step, narrow, n - 1, At(dst, y));
    } else {
      AlongAgain(x, step, k - 1, narrow);
      assert At(dst, Along(y, step, 0, narrow)) != At(src, Along(x, step, k, narrow));
      forall j | 0 <= j < k - 1 ensures At(dst, Along(y1, step, j, narrow)) != At(src, Along(x1, step, k - 1, narrow)) {
        assert At(dst, Along(y, step, j + 1, narrow)) != At(src, Along(x, step, k, narrow));
      }
      forall j | k - 1 < j < n - 1 ensures Along(y1, step, j, narrow) != Along(y1, step, k - 1, narrow) {
        assert Along(y, step, j + 1, narrow) != Along(y, step, k, narrow);
      }
      CopiedByte(next, src, x1, dst, y1, step, narrow, n - 1, k - 1);
    }
  }

  lemma AlongNarrow(v: Word, step: int, narrow: bool)
    ensures narrow ==> Along(v, step, 1, narrow) <= 0xff
  {
  }

  lemma AlongApart(v: Word, step: int, narrow: bool, j: nat, k: nat)
    requires (step == 1 || step == -1) && j < k < (if narrow then 0x100 else 0x10000)
    ensures Along(v, step, j, narrow) != Along(v, step, k, narrow)
  {
    var d := if narrow then 0x100 else 0x10000;
    if step == 1 {
      Residues(v + j, v + k, d);
    } else {
      Residues(v - k, v - j, d);
    }
  }

  lemma Residues(a: int, b: int, d: int)
    requires d == 0x100 || d == 0x10000
    requires a < b < a + d
    ensures a % d != b % d
  {
    if d == 0x100 {
      assert b - a == 0x100 * (b / 0x100 - a / 0x100) + (b % 0x100 - a % 0x100);
    } else {
      assert b - a == 0x10000 * (b / 0x10000 - a / 0x10000) + (b % 0x10000 - a % 0x10000);
    }
  }

  ghost predicate Disjoint(src: Byte, x: Word, dst: Byte, y: Word, step: int, narrow: bool, n: nat) {
    forall j, k :: 0 <= j < n && 0 <= k < n ==> At(dst, Along(y, step, j, narrow)) != At(src, Along(x, step, k, narrow))
  }

  /** When the regions do not overlap the move is a plain copy. */
  lemma DisjointCopy(mem: Memory, src: Byte, x: Word, dst: Byte, y: Word, step: int, narrow: bool, n: nat, k: nat)
    requires (step == 1 || step == -1) && (narrow ==> x <= 0xff && y <= 0xff)
    requires k < n <= (if narrow then 0x100 else 0x10000) && Disjoint(src, x, dst, y, step, narrow, n)
    ensures Peek(Copied(mem, src, x, dst, y, step, narrow, n), At(dst, Along(y, step, k, narrow)))
         == Peek(mem, At(src, Along(x, step, k, narrow)))
  {
    hide Along;
    forall j | k < j < n ensures Along(y, step, j, narrow) != Along(y, step, k, narrow) {
      AlongApart(y, step, narrow, k, j);
    }
    CopiedByte(mem, src, x, dst, y, step, narrow, n, k);
  }

  // ---- interruptions ----

  /** The states agree in everything a block move looks at: registers, and memory at the addresses in w. */
  ghost predicate Agree(w: set<int>, s: Cpu, t: Cpu) {
    s.c == t.c && s.x == t.x && s.y == t.y && s.pc == t.pc && s.pbr == t.pbr && s.dbr == t.dbr && s.emul == t.emul
    && Narrow(s) == Narrow(t) && forall a :: a in w ==> Peek(s.mem, a) == Peek(t.mem, a)
  }

  /** What one turn of the main loop reads. */
  ghost predicate Reads(w: set<int>, s: Cpu) {
    At(s.pbr, s.pc) in w && At(s.pbr, OperandPc(s, 1)) in w && At(s.pbr, OperandPc(s, 2)) in w
    && At(SourceBank(s), s.x) in w
  }

  lemma SameOperands(w: set<int>, s: Cpu, t: Cpu)
    requires Agree(w, s, t) && Reads(w, s)
    ensures Fetch(t, t.pc) == Fetch(s, s.pc) && Destination(t) == Destination(s) && SourceBank(t) == SourceBank(s)
    ensures Peek(t.mem, At(SourceBank(s), s.x)) == Peek(s.mem, At(SourceBank(s), s.x))
  {
  }

  lemma MoveAgrees(w: set<int>, s: Cpu, t: Cpu, step: int)
    requires Agree(w, s, t)
    requires Destination(t) == Destination(s) && SourceBank(t) == SourceBank(s)
    requires Peek(t.mem, At(SourceBank(s), s.x)) == Peek(s.mem, At(SourceBank(s), s.x))
    ensures Agree(w, Move(s, step), Move(t, step))
  {
    hide Fetch, Lo;
  }

  lemma TurnAgrees(w: set<int>, s: Cpu, t: Cpu)
    requires Agree(w, s, t) && Reads(w, s)
    ensures Fetch(t, t.pc) == Fetch(s, s.pc) && Agree(w, Turn(s), Turn(t))
  {
    hide Move, Agree, Reads, Destination, SourceBank, Fetch, Peek;
    SameOperands(w, s, t);
    MoveAgrees(w, s, t, StepOf(s));
  }

  /** A run of the move that is interrupted between executions: trace[k] is the state before the k-th one. */
  ghost predicate Interrupted(w: set<int>, trace: seq<Cpu>) {
    forall k, j :: 0 <= k < j < |trace| && j == k + 1 ==> Agree(w, trace[j], Turn(trace[k]))
  }

  /** Interruptions that keep the registers and the addresses in w change nothing: after every number of turns the
      interrupted run agrees with the uninterrupted one, and it has fetched the same opcodes. */
  lemma {:induction false} InterruptedRun(w: set<int>, s: Cpu, trace: seq<Cpu>, n: nat)
    requires n < |trace| && Agree(w, s, trace[0]) && Interrupted(w, trace)
    requires forall k :: 0 <= k < n ==> Reads(w, Turns(s, k))
    ensures Agree(w, Turns(s, n), trace[n])
    ensures forall k :: 0 <= k < n ==> Fetch(trace[k], trace[k].pc) == Fetch(Turns(s, k), Turns(s, k).pc)
    decreases n
  {
    hide Turn, Agree, Reads, Fetch;
    if n > 0 {
      InterruptedRun(w, s, trace, n - 1);
      TurnAgrees(w, Turns(s, n - 1), trace[n - 1]);
      assert Agree(w, trace[n], Turn(trace[n - 1]));
      AgreeVia(w, Turns(s, n), Turn(trace[n - 1]), trace[n]);
    }
  }

  /** So a move that leaves its instruction alone is carried out to its end whatever interrupts it, as long as the
      interruptions keep the registers, the instruction and the bytes to be moved. */
  lemma InterruptedMove(w: set<int>, s: Cpu, trace: seq<Cpu>)
    requires Starts(s) && Intact(s) && |trace| == s.c + 2 && Agree(w, s, trace[0]) && Interrupted(w, trace)
    requires (forall k :: 0 <= k <= s.c ==> Origin(s, k) in w) && (forall a :: InCode(s, a) ==> a in w)
    requires At(s.pbr, U16(s.pc + 1)) in w && At(s.pbr, U16(s.pc + 2)) in w
    ensures forall k :: 0 <= k <= s.c ==> trace[k].pc == s.pc && Fetch(trace[k], s.pc) == Fetch(s, s.pc)
    ensures Agree(w, After(s, s.c + 1), trace[s.c + 1])
  {
    hide Along, SameCode, Starts, InCode, Turn, Fetch, Interrupted, Agree, At, Narrow, Copied;
    forall k | 0 <= k <= s.c
      ensures Turns(s, k) == After(s, k) && SameCode(s, After(s, k)) && Reads(w, After(s, k))
    {
      MoveRuns(s, k);
      ReadsAfter(w, s, k);
    }
    MoveRuns(s, s.c + 1);
    InterruptedRun(w, s, trace, s.c + 1);
    forall k | 0 <= k <= s.c ensures trace[k].pc == s.pc && Fetch(trace[k], s.pc) == Fetch(s, s.pc) {
      InterruptedRun(w, s, trace, k);
      AgreeMeans(w, After(s, k), trace[k]);
      CodeMeans(s, After(s, k));
    }
  }

  lemma AgreeMeans(w: set<int>, s: Cpu, t: Cpu)
    requires Agree(w, s, t)
    ensures t.pc == s.pc && t.pbr == s.pbr
  {
  }

  lemma ReadsAfter(w: set<int>, s: Cpu, k: nat)
    requires Starts(s) && k <= s.c && SameCode(s, After(s, k))
    requires (forall a :: InCode(s, a) ==> a in w) && Origin(s, k) in w
    requires At(s.pbr, U16(s.pc + 1)) in w && At(s.pbr, U16(s.pc + 2)) in w
    ensures Reads(w, After(s, k))
  {
    ThreeBytes(s);
    hide Along, Fetch, Copied, Widths;
    CodeMeans(s, After(s, k));
  }

  lemma AgreeVia(w: set<int>, s: Cpu, t: Cpu, u: Cpu)
    requires Agree(w, s, t) && Agree(w, u, t)
    ensures Agree(w, s, u)
  {
  }

  /** An interrupt whose handler keeps the registers and the addresses in w is such an interruption. */
  lemma HandlerAgrees(w: set<int>, k: Trap, s: Cpu, t: Cpu)
    requires Widths(s) && (k == Irq || k == Nmi) && Handler(k, s, t) && (s.emul ==> s.pbr == 0)
    requires t.c == s.c && t.x == s.x && t.y == s.y && t.dbr == s.dbr
    requires forall a :: a in w ==> Peek(t.mem, a) == Peek(s.mem, a)
    ensures Agree(w, Rti(t), s)
  {
    hide Handler, Packed, Unpacked, Lo, PulledAt, StackUp;
    HandlerResumes(k, s, t);
    HandlerMode(k, s, t);
    RtiKeeps(t);
  }

  lemma HandlerMode(k: Trap, s: Cpu, t: Cpu)
    requires Handler(k, s, t)
    ensures t.emul == s.emul
  {
  }

  lemma RtiKeeps(t: Cpu)
    ensures Rti(t).c == t.c && Rti(t).dbr == t.dbr && Rti(t).mem == t.mem && Rti(t).emul == t.emul
  {
  }
}
