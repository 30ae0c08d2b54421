/** What a program gets that executes MVN or MVP: the bytes of one region in another one, upwards or downwards. */
module BlockMoveLaws {
  import opened Bits
  import opened Isa65816
  import opened Modes65816
  import opened BlockMoves

  /** The k-th address of a region that begins at index v of a bank: MVN ($54) goes up, MVP ($44) down, in the width of the
      index registers. */
  function Region(s: Cpu, bank: Byte, v: Word, k: int): int {
    var index := if Peek(s.mem, s.pc + 65536 * s.pbr) == 0x54 then v + k else v - k;
    (if s.emul || s.st.x then index % 256 else index % 65536) + 65536 * bank
  }

  /** The bytes are taken from X on in the bank that the third byte of the instruction names, */
  function From(s: Cpu, k: int): int {
    Region(s, Peek(s.mem, s.pc + 2 + 65536 * s.pbr), s.x, k)
  }

  /** and go from Y on into the bank that the second byte names. */
  function To(s: Cpu, k: int): int {
    Region(s, Peek(s.mem, s.pc + 1 + 65536 * s.pbr), s.y, k)
  }

  /** MVN or MVP at the program counter, in a bank; C is one less than the number of bytes, and the destination is neither the
      instruction nor part of the source. */
  ghost predicate Clear(s: Cpu) {
    && Widths(s) && s.pc + 2 <= 65535 && (s.emul || s.st.x ==> s.c < 256)
    && (Peek(s.mem, s.pc + 65536 * s.pbr) == 0x54 || Peek(s.mem, s.pc + 65536 * s.pbr) == 0x44)
    && (forall k :: 0 <= k <= s.c ==> !(s.pc <= To(s, k) - 65536 * s.pbr <= s.pc + 2))
    && (forall j, k :: 0 <= j <= s.c && 0 <= k <= s.c ==> To(s, j) != From(s, k))
  }

  lemma Places(s: Cpu, k: nat)
    requires s.pc + 2 <= 65535
    ensures From(s, k) == Origin(s, k) && To(s, k) == Target(s, k)
    ensures IsMove(s) <==> Peek(s.mem, s.pc + 65536 * s.pbr) == 0x54 || Peek(s.mem, s.pc + 65536 * s.pbr) == 0x44
  {
    hide Peek;
    Mod16Word(s.pc + 1);
    Mod16Word(s.pc + 2);
  }

  lemma ClearIsIntact(s: Cpu)
    requires Clear(s)
    ensures Starts(s) && Intact(s)
  {
    Places(s, 0);
    if s.c == 0 {
      AlongZero(s.x, StepOf(s), Narrow(s));
      AlongZero(s.y, StepOf(s), Narrow(s));
      NoneMoved(s);
    } else {
      forall k, a | 0 <= k < s.c && InCode(s, a) ensures SameByte(s, k, a) {
        Places(s, k);
        OutsideCode(s, k, a);
      }
      InsideBank(s);
    }
    hide Intact, SameByte;
  }

  lemma OutsideCode(s: Cpu, k: nat, a: int)
    requires s.pc + 2 <= 65535 && !(s.pc <= To(s, k) - 65536 * s.pbr <= s.pc + 2) && To(s, k) == Target(s, k) && InCode(s, a)
    ensures SameByte(s, k, a)
  {
    hide Target, To, MemoryAfter, Origin, Peek;
  }

  lemma NoneMoved(s: Cpu)
    requires s.c == 0 && Starts(s)
    requires Along(s.x, StepOf(s), 0, Narrow(s)) == s.x && Along(s.y, StepOf(s), 0, Narrow(s)) == s.y
    ensures Intact(s)
  {
    hide StepOf, Along, Destination, SourceBank;
    assert After(s, 0) == s;
  }

  /** Every byte of the source arrives, nothing else in memory changes, and the instruction is left behind with the index
      registers past the regions, C at $FFFF and the data bank at the destination. */
  lemma MoveCopies(s: Cpu)
    requires Clear(s)
    ensures var t := Turns(s, s.c + 1);
            && (forall k :: 0 <= k <= s.c ==> Peek(t.mem, To(s, k)) == Peek(s.mem, From(s, k)))
            && (forall a :: (forall k :: 0 <= k <= s.c ==> To(s, k) != a) ==> Peek(t.mem, a) == Peek(s.mem, a))
            && t.pc == (s.pc + 3) % 65536 && t.c == 0xffff && t.dbr == Peek(s.mem, s.pc + 1 + 65536 * s.pbr)
            && t.x + 65536 * t.dbr == Region(s, t.dbr, s.x, s.c + 1) && t.y + 65536 * t.dbr == To(s, s.c + 1)
            && t == s.(pc := t.pc, c := t.c, dbr := t.dbr, x := t.x, y := t.y, mem := t.mem)
  {
    hide Clear, Turns, MemoryAfter, Region, From, To, Origin, Target, Along, Intact, Starts, IsMove;
    ClearFacts(s);
    ClearIsIntact(s);
    MoveRuns(s, s.c + 1);
    forall k | 0 <= k <= s.c ensures Peek(MemoryAfter(s, s.c + 1), To(s, k)) == Peek(s.mem, From(s, k)) {
      Arrives(s, k);
    }
    forall a | forall k :: 0 <= k <= s.c ==> To(s, k) != a ensures Peek(MemoryAfter(s, s.c + 1), a) == Peek(s.mem, a) {
      Untouched(s, a);
    }
    EndsPast(s);
  }

  lemma ClearFacts(s: Cpu)
    requires Clear(s)
    ensures s.pc + 2 <= 65535 && Widths(s) && (s.emul || s.st.x ==> s.c < 256)
    ensures forall j, k :: 0 <= j <= s.c && 0 <= k <= s.c ==> To(s, j) != From(s, k)
  {
    hide From, To;
  }

  lemma Arrives(s: Cpu, k: nat)
    requires Clear(s) && k <= s.c
    ensures Peek(MemoryAfter(s, s.c + 1), To(s, k)) == Peek(s.mem, From(s, k))
  {
    hide Clear, From, To, Along, Peek, Copied, StepOf;
    ClearFacts(s);
    forall j | 0 <= j <= s.c ensures From(s, j) == Origin(s, j) && To(s, j) == Target(s, j) {
      Places(s, j);
    }
    StepEither(s);
    forall i, j | 0 <= i < s.c + 1 && 0 <= j < s.c + 1
      ensures At(Destination(s), Along(s.y, StepOf(s), i, Narrow(s))) != At(SourceBank(s), Along(s.x, StepOf(s), j, Narrow(s)))
    {
      assert Target(s, i) == To(s, i) && Origin(s, j) == From(s, j);
    }
    DisjointCopy(s.mem, SourceBank(s), s.x, Destination(s), s.y, StepOf(s), Narrow(s), s.c + 1, k);
  }

  lemma StepEither(s: Cpu)
    ensures StepOf(s) == 1 || StepOf(s) == -1
  {
  }

  lemma Untouched(s: Cpu, a: int)
    requires Clear(s) && forall k :: 0 <= k <= s.c ==> To(s, k) != a
    ensures Peek(MemoryAfter(s, s.c + 1), a) == Peek(s.mem, a)
  {
    hide Clear, From, To, Along, Peek, Copied, StepOf;
    ClearFacts(s);
    forall j | 0 <= j <= s.c ensures Target(s, j) != a {
      Places(s, j);
      assert To(s, j) != a;
    }
    StepEither(s);
    forall j | 0 <= j < s.c + 1 ensures At(Destination(s), Along(s.y, StepOf(s), j, Narrow(s))) != a {
      assert Target(s, j) != a;
    }
    CopiedElsewhere(s.mem, SourceBank(s), s.x, Destination(s), s.y, StepOf(s), Narrow(s), s.c + 1, a);
  }

  lemma EndsPast(s: Cpu)
    requires s.pc + 2 <= 65535
    ensures var t := After(s, s.c + 1);
            && t.pc == (s.pc + 3) % 65536 && t.c == 0xffff && t.dbr == Peek(s.mem, s.pc + 1 + 65536 * s.pbr)
            && t.x + 65536 * t.dbr == Region(s, t.dbr, s.x, s.c + 1) && t.y + 65536 * t.dbr == To(s, s.c + 1)
  {
    hide MemoryAfter, Peek;
    Mod16Word(s.pc + 1);
  }
}
