/** The 6510 opcode matrix: the bit-field decoder of the instruction set reference, row by row. */
module OpcodeMatrix {
  import opened Bits
  import opened Isa6510

  lemma Decoded0Low()
    ensures Decode(0x00) == BRK
    ensures Decode(0x01) == Read(ORA, IndirectX)
    ensures Decode(0x02) == JAM
    ensures Decode(0x03) == Modify(SLO, IndirectX)
    ensures Decode(0x04) == Read(NOP, Zero)
    ensures Decode(0x05) == Read(ORA, Zero)
    ensures Decode(0x06) == Modify(ASL, Zero)
    ensures Decode(0x07) == Modify(SLO, Zero)
  {
  }

  lemma Decoded0High()
    ensures Decode(0x08) == Implied(PHP)
    ensures Decode(0x09) == Read(ORA, Immediate)
    ensures Decode(0x0a) == Accumulator(ASL)
    ensures Decode(0x0b) == Read(ANC, Immediate)
    ensures Decode(0x0c) == Read(NOP, Absolute)
    ensures Decode(0x0d) == Read(ORA, Absolute)
    ensures Decode(0x0e) == Modify(ASL, Absolute)
    ensures Decode(0x0f) == Modify(SLO, Absolute)
  {
  }

  lemma BrkExecuted(nmi: bool, s: Cpu, lo: Byte, hi: Byte)
    ensures Executed(0x00, nmi, s, lo, hi) == Trap(s, U16(s.pc + 2), true, IrqVector(nmi))
  {
    hide Decode, Trap, U16;
    Decoded0Low();
  }

  lemma Decoded1Low()
    ensures Decode(0x10) == Branch(N, false)
    ensures Decode(0x11) == Read(ORA, IndirectY)
    ensures Decode(0x12) == JAM
    ensures Decode(0x13) == Modify(SLO, IndirectY)
    ensures Decode(0x14) == Read(NOP, ZeroX)
    ensures Decode(0x15) == Read(ORA, ZeroX)
    ensures Decode(0x16) == Modify(ASL, ZeroX)
    ensures Decode(0x17) == Modify(SLO, ZeroX)
  {
  }

  lemma Decoded1High()
    ensures Decode(0x18) == Implied(CLC)
    ensures Decode(0x19) == Read(ORA, AbsoluteY)
    ensures Decode(0x1a) == Implied(NOPI)
    ensures Decode(0x1b) == Modify(SLO, AbsoluteY)
    ensures Decode(0x1c) == Read(NOP, AbsoluteX)
    ensures Decode(0x1d) == Read(ORA, AbsoluteX)
    ensures Decode(0x1e) == Modify(ASL, AbsoluteX)
    ensures Decode(0x1f) == Modify(SLO, AbsoluteX)
  {
  }

  lemma Decoded2Low()
    ensures Decode(0x20) == JSR
    ensures Decode(0x21) == Read(AND, IndirectX)
    ensures Decode(0x22) == JAM
    ensures Decode(0x23) == Modify(RLA, IndirectX)
    ensures Decode(0x24) == Read(BIT, Zero)
    ensures Decode(0x25) == Read(AND, Zero)
    ensures Decode(0x26) == Modify(ROL, Zero)
    ensures Decode(0x27) == Modify(RLA, Zero)
  {
  }

  lemma Decoded2High()
    ensures Decode(0x28) == Implied(PLP)
    ensures Decode(0x29) == Read(AND, Immediate)
    ensures Decode(0x2a) == Accumulator(ROL)
    ensures Decode(0x2b) == Read(ANC, Immediate)
    ensures Decode(0x2c) == Read(BIT, Absolute)
    ensures Decode(0x2d) == Read(AND, Absolute)
    ensures Decode(0x2e) == Modify(ROL, Absolute)
    ensures Decode(0x2f) == Modify(RLA, Absolute)
  {
  }

  lemma Decoded3Low()
    ensures Decode(0x30) == Branch(N, true)
    ensures Decode(0x31) == Read(AND, IndirectY)
    ensures Decode(0x32) == JAM
    ensures Decode(0x33) == Modify(RLA, IndirectY)
    ensures Decode(0x34) == Read(NOP, ZeroX)
    ensures Decode(0x35) == Read(AND, ZeroX)
    ensures Decode(0x36) == Modify(ROL, ZeroX)
    ensures Decode(0x37) == Modify(RLA, ZeroX)
  {
  }

  lemma Decoded3High()
    ensures Decode(0x38) == Implied(SEC)
    ensures Decode(0x39) == Read(AND, AbsoluteY)
    ensures Decode(0x3a) == Implied(NOPI)
    ensures Decode(0x3b) == Modify(RLA, AbsoluteY)
    ensures Decode(0x3c) == Read(NOP, AbsoluteX)
    ensures Decode(0x3d) == Read(AND, AbsoluteX)
    ensures Decode(0x3e) == Modify(ROL, AbsoluteX)
    ensures Decode(0x3f) == Modify(RLA, AbsoluteX)
  {
  }

  lemma Decoded4Low()
    ensures Decode(0x40) == RTI
    ensures Decode(0x41) == Read(EOR, IndirectX)
    ensures Decode(0x42) == JAM
    ensures Decode(0x43) == Modify(SRE, IndirectX)
    ensures Decode(0x44) == Read(NOP, Zero)
    ensures Decode(0x45) == Read(EOR, Zero)
    ensures Decode(0x46) == Modify(LSR, Zero)
    ensures Decode(0x47) == Modify(SRE, Zero)
  {
  }

  lemma Decoded4High()
    ensures Decode(0x48) == Implied(PHA)
    ensures Decode(0x49) == Read(EOR, Immediate)
    ensures Decode(0x4a) == Accumulator(LSR)
    ensures Decode(0x4b) == Read(ASR, Immediate)
    ensures Decode(0x4c) == JMP
    ensures Decode(0x4d) == Read(EOR, Absolute)
    ensures Decode(0x4e) == Modify(LSR, Absolute)
    ensures Decode(0x4f) == Modify(SRE, Absolute)
  {
  }

  lemma Decoded5Low()
    ensures Decode(0x50) == Branch(V, false)
    ensures Decode(0x51) == Read(EOR, IndirectY)
    ensures Decode(0x52) == JAM
    ensures Decode(0x53) == Modify(SRE, IndirectY)
    ensures Decode(0x54) == Read(NOP, ZeroX)
    ensures Decode(0x55) == Read(EOR, ZeroX)
    ensures Decode(0x56) == Modify(LSR, ZeroX)
    ensures Decode(0x57) == Modify(SRE, ZeroX)
  {
  }

  lemma Decoded5High()
    ensures Decode(0x58) == Implied(CLI)
    ensures Decode(0x59) == Read(EOR, AbsoluteY)
    ensures Decode(0x5a) == Implied(NOPI)
    ensures Decode(0x5b) == Modify(SRE, AbsoluteY)
    ensures Decode(0x5c) == Read(NOP, AbsoluteX)
    ensures Decode(0x5d) == Read(EOR, AbsoluteX)
    ensures Decode(0x5e) == Modify(LSR, AbsoluteX)
    ensures Decode(0x5f) == Modify(SRE, AbsoluteX)
  {
  }

  lemma Decoded6Low()
    ensures Decode(0x60) == RTS
    ensures Decode(0x61) == Read(ADC, IndirectX)
    ensures Decode(0x62) == JAM
    ensures Decode(0x63) == Modify(RRA, IndirectX)
    ensures Decode(0x64) == Read(NOP, Zero)
    ensures Decode(0x65) == Read(ADC, Zero)
    ensures Decode(0x66) == Modify(ROR, Zero)
    ensures Decode(0x67) == Modify(RRA, Zero)
  {
  }

  lemma Decoded6High()
    ensures Decode(0x68) == Implied(PLA)
    ensures Decode(0x69) == Read(ADC, Immediate)
    ensures Decode(0x6a) == Accumulator(ROR)
    ensures Decode(0x6b) == Read(ARR, Immediate)
    ensures Decode(0x6c) == JMPI
    ensures Decode(0x6d) == Read(ADC, Absolute)
    ensures Decode(0x6e) == Modify(ROR, Absolute)
    ensures Decode(0x6f) == Modify(RRA, Absolute)
  {
  }

  lemma Decoded7Low()
    ensures Decode(0x70) == Branch(V, true)
    ensures Decode(0x71) == Read(ADC, IndirectY)
    ensures Decode(0x72) == JAM
    ensures Decode(0x73) == Modify(RRA, IndirectY)
    ensures Decode(0x74) == Read(NOP, ZeroX)
    ensures Decode(0x75) == Read(ADC, ZeroX)
    ensures Decode(0x76) == Modify(ROR, ZeroX)
    ensures Decode(0x77) == Modify(RRA, ZeroX)
  {
  }

  lemma Decoded7High()
    ensures Decode(0x78) == Implied(SEI)
    ensures Decode(0x79) == Read(ADC, AbsoluteY)
    ensures Decode(0x7a) == Implied(NOPI)
    ensures Decode(0x7b) == Modify(RRA, AbsoluteY)
    ensures Decode(0x7c) == Read(NOP, AbsoluteX)
    ensures Decode(0x7d) == Read(ADC, AbsoluteX)
    ensures Decode(0x7e) == Modify(ROR, AbsoluteX)
    ensures Decode(0x7f) == Modify(RRA, AbsoluteX)
  {
  }

  lemma Decoded8Low()
    ensures Decode(0x80) == Read(NOP, Immediate)
    ensures Decode(0x81) == Write(STA, IndirectX)
    ensures Decode(0x82) == Read(NOP, Immediate)
    ensures Decode(0x83) == Write(SAX, IndirectX)
    ensures Decode(0x84) == Write(STY, Zero)
    ensures Decode(0x85) == Write(STA, Zero)
    ensures Decode(0x86) == Write(STX, Zero)
    ensures Decode(0x87) == Write(SAX, Zero)
  {
  }

  lemma Decoded8High()
    ensures Decode(0x88) == Implied(DEY)
    ensures Decode(0x89) == Read(NOP, Immediate)
    ensures Decode(0x8a) == Implied(TXA)
    ensures Decode(0x8b) == Read(ANE, Immediate)
    ensures Decode(0x8c) == Write(STY, Absolute)
    ensures Decode(0x8d) == Write(STA, Absolute)
    ensures Decode(0x8e) == Write(STX, Absolute)
    ensures Decode(0x8f) == Write(SAX, Absolute)
  {
  }

  lemma Decoded9Low()
    ensures Decode(0x90) == Branch(C, false)
    ensures Decode(0x91) == Write(STA, IndirectY)
    ensures Decode(0x92) == JAM
    ensures Decode(0x93) == Unstable(SHA, IndirectY)
    ensures Decode(0x94) == Write(STY, ZeroX)
    ensures Decode(0x95) == Write(STA, ZeroX)
    ensures Decode(0x96) == Write(STX, ZeroY)
    ensures Decode(0x97) == Write(SAX, ZeroY)
  {
  }

  lemma Decoded9High()
    ensures Decode(0x98) == Implied(TYA)
    ensures Decode(0x99) == Write(STA, AbsoluteY)
    ensures Decode(0x9a) == Implied(TXS)
    ensures Decode(0x9b) == Unstable(SHS, AbsoluteY)
    ensures Decode(0x9c) == Unstable(SHY, AbsoluteX)
    ensures Decode(0x9d) == Write(STA, AbsoluteX)
    ensures Decode(0x9e) == Unstable(SHX, AbsoluteY)
    ensures Decode(0x9f) == Unstable(SHA, AbsoluteY)
  {
  }

  lemma DecodedALow()
    ensures Decode(0xa0) == Read(LDY, Immediate)
    ensures Decode(0xa1) == Read(LDA, IndirectX)
    ensures Decode(0xa2) == Read(LDX, Immediate)
    ensures Decode(0xa3) == Read(LAX, IndirectX)
    ensures Decode(0xa4) == Read(LDY, Zero)
    ensures Decode(0xa5) == Read(LDA, Zero)
    ensures Decode(0xa6) == Read(LDX, Zero)
    ensures Decode(0xa7) == Read(LAX, Zero)
  {
  }

  lemma DecodedAHigh()
    ensures Decode(0xa8) == Implied(TAY)
    ensures Decode(0xa9) == Read(LDA, Immediate)
    ensures Decode(0xaa) == Implied(TAX)
    ensures Decode(0xab) == Read(LXA, Immediate)
    ensures Decode(0xac) == Read(LDY, Absolute)
    ensures Decode(0xad) == Read(LDA, Absolute)
    ensures Decode(0xae) == Read(LDX, Absolute)
    ensures Decode(0xaf) == Read(LAX, Absolute)
  {
  }

  lemma DecodedBLow()
    ensures Decode(0xb0) == Branch(C, true)
    ensures Decode(0xb1) == Read(LDA, IndirectY)
    ensures Decode(0xb2) == JAM
    ensures Decode(0xb3) == Read(LAX, IndirectY)
    ensures Decode(0xb4) == Read(LDY, ZeroX)
    ensures Decode(0xb5) == Read(LDA, ZeroX)
    ensures Decode(0xb6) == Read(LDX, ZeroY)
    ensures Decode(0xb7) == Read(LAX, ZeroY)
  {
  }

  lemma DecodedBHigh()
    ensures Decode(0xb8) == Implied(CLV)
    ensures Decode(0xb9) == Read(LDA, AbsoluteY)
    ensures Decode(0xba) == Implied(TSX)
    ensures Decode(0xbb) == Read(LAS, AbsoluteY)
    ensures Decode(0xbc) == Read(LDY, AbsoluteX)
    ensures Decode(0xbd) == Read(LDA, AbsoluteX)
    ensures Decode(0xbe) == Read(LDX, AbsoluteY)
    ensures Decode(0xbf) == Read(LAX, AbsoluteY)
  {
  }

  lemma DecodedCLow()
    ensures Decode(0xc0) == Read(CPY, Immediate)
    ensures Decode(0xc1) == Read(CMP, IndirectX)
    ensures Decode(0xc2) == Read(NOP, Immediate)
    ensures Decode(0xc3) == Modify(DCP, IndirectX)
    ensures Decode(0xc4) == Read(CPY, Zero)
    ensures Decode(0xc5) == Read(CMP, Zero)
    ensures Decode(0xc6) == Modify(DEC, Zero)
    ensures Decode(0xc7) == Modify(DCP, Zero)
  {
  }

  lemma DecodedCHigh()
    ensures Decode(0xc8) == Implied(INY)
    ensures Decode(0xc9) == Read(CMP, Immediate)
    ensures Decode(0xca) == Implied(DEX)
    ensures Decode(0xcb) == Read(SBX, Immediate)
    ensures Decode(0xcc) == Read(CPY, Absolute)
    ensures Decode(0xcd) == Read(CMP, Absolute)
    ensures Decode(0xce) == Modify(DEC, Absolute)
    ensures Decode(0xcf) == Modify(DCP, Absolute)
  {
  }

  lemma DecodedDLow()
    ensures Decode(0xd0) == Branch(Z, false)
    ensures Decode(0xd1) == Read(CMP, IndirectY)
    ensures Decode(0xd2) == JAM
    ensures Decode(0xd3) == Modify(DCP, IndirectY)
    ensures Decode(0xd4) == Read(NOP, ZeroX)
    ensures Decode(0xd5) == Read(CMP, ZeroX)
    ensures Decode(0xd6) == Modify(DEC, ZeroX)
    ensures Decode(0xd7) == Modify(DCP, ZeroX)
  {
  }

  lemma DecodedDHigh()
    ensures Decode(0xd8) == Implied(CLD)
    ensures Decode(0xd9) == Read(CMP, AbsoluteY)
    ensures Decode(0xda) == Implied(NOPI)
    ensures Decode(0xdb) == Modify(DCP, AbsoluteY)
    ensures Decode(0xdc) == Read(NOP, AbsoluteX)
    ensures Decode(0xdd) == Read(CMP, AbsoluteX)
    ensures Decode(0xde) == Modify(DEC, AbsoluteX)
    ensures Decode(0xdf) == Modify(DCP, AbsoluteX)
  {
  }

  lemma DecodedELow()
    ensures Decode(0xe0) == Read(CPX, Immediate)
    ensures Decode(0xe1) == Read(SBC, IndirectX)
    ensures Decode(0xe2) == Read(NOP, Immediate)
    ensures Decode(0xe3) == Modify(ISB, IndirectX)
    ensures Decode(0xe4) == Read(CPX, Zero)
    ensures Decode(0xe5) == Read(SBC, Zero)
    ensures Decode(0xe6) == Modify(INC, Zero)
    ensures Decode(0xe7) == Modify(ISB, Zero)
  {
  }

  lemma DecodedEHigh()
    ensures Decode(0xe8) == Implied(INX)
    ensures Decode(0xe9) == Read(SBC, Immediate)
    ensures Decode(0xea) == Implied(NOPI)
    ensures Decode(0xeb) == Read(SBC, Immediate)
    ensures Decode(0xec) == Read(CPX, Absolute)
    ensures Decode(0xed) == Read(SBC, Absolute)
    ensures Decode(0xee) == Modify(INC, Absolute)
    ensures Decode(0xef) == Modify(ISB, Absolute)
  {
  }

  lemma DecodedFLow()
    ensures Decode(0xf0) == Branch(Z, true)
    ensures Decode(0xf1) == Read(SBC, IndirectY)
    ensures Decode(0xf2) == JAM
    ensures Decode(0xf3) == Modify(ISB, IndirectY)
    ensures Decode(0xf4) == Read(NOP, ZeroX)
    ensures Decode(0xf5) == Read(SBC, ZeroX)
    ensures Decode(0xf6) == Modify(INC, ZeroX)
    ensures Decode(0xf7) == Modify(ISB, ZeroX)
  {
  }

  lemma DecodedFHigh()
    ensures Decode(0xf8) == Implied(SED)
    ensures Decode(0xf9) == Read(SBC, AbsoluteY)
    ensures Decode(0xfa) == Implied(NOPI)
    ensures Decode(0xfb) == Modify(ISB, AbsoluteY)
    ensures Decode(0xfc) == Read(NOP, AbsoluteX)
    ensures Decode(0xfd) == Read(SBC, AbsoluteX)
    ensures Decode(0xfe) == Modify(INC, AbsoluteX)
    ensures Decode(0xff) == Modify(ISB, AbsoluteX)
  {
  }

  /** SHA through a pointer, written out. */
  lemma ShaThroughPointer(s: Cpu, lo: Byte, hi: Byte, stolen: bool)
    ensures var base := ZeroWord(s.mem, lo);
            var v := And(And(s.r.a, s.r.x), U8(Hi(base) + 1));
            Advance(UnstableStore(SHA, IndirectY, s, lo, hi, stolen), 2, 6)
            == s.(mem := s.mem[if Lo(base) + s.r.y > 0xff then Pair(Lo(U16(base + s.r.y)), v) else U16(base + s.r.y) :=
                               if stolen then And(s.r.a, s.r.x) else v],
                  pc := U16(s.pc + 2), clk := s.clk + 6)
  {
    hide And, U16, U8, Lo, Hi, ZeroWord;
  }

  lemma ShaPointerExec(s: Cpu, lo: Byte, hi: Byte)
    ensures Exec(Unstable(SHA, IndirectY), s, lo, hi) == Advance(UnstableStore(SHA, IndirectY, s, lo, hi, false), 2, 6)
  {
    hide UnstableStore, U16;
  }

  lemma ImpliedClock(op: ImpliedOp, s: Cpu, clk: int)
    ensures ImpliedEffect(op, s.(clk := clk)) == ImpliedEffect(op, s).(clk := clk) && ImpliedEffect(op, s).clk == s.clk
  {
    hide U8, SetA, TransferEffect, Packed, Unpacked;
  }

  lemma ImpliedPc(op: ImpliedOp, s: Cpu)
    ensures ImpliedEffect(op, s).pc == s.pc
  {
    hide U8, SetA, TransferEffect, Packed, Unpacked;
  }

  lemma ImpliedExec(op: ImpliedOp, s: Cpu, lo: Byte, hi: Byte)
    ensures Exec(Implied(op), s, lo, hi) == Advance(ImpliedEffect(op, s), 1, ImpliedCycles(op))
  {
    hide ImpliedEffect, ImpliedCycles, Advance;
  }

  lemma WriteExec(op: WriteOp, mode: Mode, s: Cpu, lo: Byte, hi: Byte)
    ensures Exec(Write(op, mode), s, lo, hi)
         == Advance(s.(mem := s.mem[Ea(mode, s, lo, hi) := Stored(op, s.r)]), Length(mode), WriteCycles(mode))
  {
    hide Advance, Stored, Ea, Length, WriteCycles;
  }

  lemma ModifyExec(op: ModifyOp, mode: Mode, s: Cpu, lo: Byte, hi: Byte)
    ensures Exec(Modify(op, mode), s, lo, hi)
         == Advance(Modified(op, s, Ea(mode, s, lo, hi)), Length(mode), WriteCycles(mode) + 2)
  {
    hide Advance, Modified, Ea, Length, WriteCycles;
  }

  /** A rotation to the right of nine bits. */
  lemma RotatedRight(v: Byte, c: bool)
    ensures var r := v + (if c then 0x100 else 0);
            Bit0(r) == Bit0(v) && r / 2 == v / 2 + 128 * Num(c) && 0 <= r / 2 < 0x100
  {
  }

  lemma RtiExec(s: Cpu, lo: Byte, hi: Byte)
    ensures Exec(RTI, s, lo, hi) == ReturnFromInterruptEffect(s)
  {
    hide ReturnFromInterruptEffect;
  }

  /** SHA, SHX, SHY and SHS with an absolute address, written out. */
  lemma ShAbsolute(op: UnstableOp, s: Cpu, lo: Byte, hi: Byte, stolen: bool)
    ensures var mode, index := if op == SHY then AbsoluteX else AbsoluteY, if op == SHY then s.r.x else s.r.y;
            var base, v := Pair(lo, hi), And(UnstableSource(op, s.r), U8(Hi(Pair(lo, hi)) + 1));
            Advance(UnstableStore(op, mode, s, lo, hi, stolen), 3, 5)
            == s.(mem := s.mem[if Lo(base) + index > 0xff then Pair(Lo(U16(base + index)), v) else U16(base + index) :=
                               if stolen then UnstableSource(op, s.r) else v],
                  r := if op == SHS then s.r.(sp := And(s.r.a, s.r.x)) else s.r, pc := U16(s.pc + 3), clk := s.clk + 5)
  {
    hide And, U16, U8, Lo, Hi, UnstableSource;
  }

  lemma ShAbsoluteExec(op: UnstableOp, s: Cpu, lo: Byte, hi: Byte)
    ensures var mode := if op == SHY then AbsoluteX else AbsoluteY;
            Exec(Unstable(op, mode), s, lo, hi) == Advance(UnstableStore(op, mode, s, lo, hi, false), 3, 5)
  {
    hide UnstableStore, U16;
  }

  lemma OpcodeFields(op: Byte)
    ensures op % 0x20 == 4 * (op / 4 % 8) + op % 4
    ensures 0 <= op / 0x20 <= 7 && (op < 0x80 <==> op / 0x20 < 4)
  {
    var q := op / 4;
    assert op == 0x20 * (q / 8) + (4 * (q % 8) + op % 4);
  }

  /** The twelve opcodes that halt are exactly the entries that the decoder leaves over. */
  lemma JamDecoded(op: Byte)
    ensures IsJam(op) <==> Decode(op) == JAM
  {
    OpcodeFields(op);
    FieldsJam(op / 0x20, op / 4 % 8, op % 4);
  }

  /** The JAM entries by bit fields. */
  lemma FieldsJam(aaa: int, bbb: int, cc: int)
    requires 0 <= aaa <= 7 && 0 <= bbb <= 7 && 0 <= cc <= 3
    ensures (if cc == 0 then Decode00(aaa, bbb) else if cc == 1 then Decode01(aaa, Mode01(bbb))
             else if cc == 2 then Decode10(aaa, bbb) else Decode11(aaa, bbb)) == JAM
            <==> cc == 2 && (bbb == 4 || (bbb == 0 && aaa < 4))
  {
  }
}
