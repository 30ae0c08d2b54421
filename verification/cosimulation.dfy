/** The two emulations of the 6510 side by side, and what holds of the runs they agree on. */
module Cosimulation {
  import opened Bits
  import opened Isa6510
  import opened OpcodeMatrix
  import LumpedCore
  import CycleCore

  /** From equal visible states both cores reach equal visible states after any run, and the state they reach is
      the one the instruction set reference prescribes: registers, status, memory, program counter modulo 65536
      and clock. */
  method Cosimulate(lumped: LumpedCore.Core, cycle: CycleCore.Core, events: seq<Event>)
    requires lumped.Visible() == cycle.Visible()
    modifies lumped, cycle
    ensures lumped.Visible() == cycle.Visible() == Run(old(lumped.Visible()), events)
  {
    hide LumpedCore.Core.Visible, CycleCore.Core.Visible, Run;
    lumped.Run(events);
    cycle.Run(events);
  }

  // ---- runs ----

  /** No JAM opcode is executed on the way. */
  predicate Survives(s: Cpu, events: seq<Event>)
    decreases |events|
  {
    events == [] || (!Jams(events[0], s) && Survives(Happen(events[0], s), events[1..]))
  }

  /** A run may be cut anywhere: it resumes where the first part left off, unless that part ended in a JAM. */
  lemma {:induction false} RunSplit(s: Cpu, first: seq<Event>, rest: seq<Event>)
    ensures Run(s, first + rest) == if Survives(s, first) then Run(Run(s, first), rest) else Run(s, first)
    decreases |first|
  {
    if first == [] {
      assert first + rest == rest;
    } else if Jams(first[0], s) {
    } else {
      assert (first + rest)[1..] == first[1..] + rest;
      RunSplit(Happen(first[0], s), first[1..], rest);
    }
  }

  lemma {:induction false} SurvivesSplit(s: Cpu, first: seq<Event>, rest: seq<Event>)
    ensures Survives(s, first + rest) == (Survives(s, first) && Survives(Run(s, first), rest))
    decreases |first|
  {
    if first == [] {
      assert first + rest == rest;
    } else if Jams(first[0], s) {
    } else {
      assert (first + rest)[1..] == first[1..] + rest;
      SurvivesSplit(Happen(first[0], s), first[1..], rest);
    }
  }

  // ---- the clock ----

  function Later(s: Cpu, d: int): Cpu {
    s.(clk := s.clk + d)
  }

  lemma ImpliedLater(op: ImpliedOp, s: Cpu, d: int)
    ensures ImpliedEffect(op, Later(s, d)) == Later(ImpliedEffect(op, s), d)
  {
    hide U8, SetA, TransferEffect, Packed, Unpacked;
  }

  lemma UnstableLater(op: UnstableOp, mode: Mode, s: Cpu, lo: Byte, hi: Byte, d: int)
    ensures UnstableStore(op, mode, Later(s, d), lo, hi, false) == Later(UnstableStore(op, mode, s, lo, hi, false), d)
  {
    hide U16, U8, Lo, Hi, And;
  }

  lemma AddressLater(mode: Mode, s: Cpu, lo: Byte, hi: Byte, d: int)
    ensures Ea(mode, Later(s, d), lo, hi) == Ea(mode, s, lo, hi)
    ensures Crosses(mode, Later(s, d), lo, hi) == Crosses(mode, s, lo, hi)
    ensures Operand(mode, Later(s, d), lo, hi) == Operand(mode, s, lo, hi)
  {
    hide U16, U8, Lo, Hi;
  }

  lemma ControlLater(s: Cpu, lo: Byte, d: int)
    ensures Trap(Later(s, d), U16(s.pc + 2), true, 0xfffe) == Later(Trap(s, U16(s.pc + 2), true, 0xfffe), d)
    ensures CallEffect(Later(s, d), lo) == Later(CallEffect(s, lo), d)
    ensures ReturnEffect(Later(s, d)) == Later(ReturnEffect(s), d)
    ensures ReturnFromInterruptEffect(Later(s, d)) == Later(ReturnFromInterruptEffect(s), d)
  {
    hide U16, U8, Lo, Hi, Packed, Unpacked;
  }

  lemma ExecLater(i: Instr, s: Cpu, lo: Byte, hi: Byte, d: int)
    ensures Exec(i, Later(s, d), lo, hi) == Later(Exec(i, s, lo, hi), d)
  {
    hide U16, U8, Lo, Hi, ReadEffect, ModifyEffect, Shifted, ImpliedEffect, UnstableStore, Stored;
    hide Trap, CallEffect, ReturnEffect, ReturnFromInterruptEffect;
    hide Ea, Crosses, Operand;
    if i == BRK || i == JSR || i == RTS || i == RTI {
      ControlLater(s, lo, d);
    } else if i.Read? {
      AddressLater(i.rmode, s, lo, hi, d);
    } else if i.Modify? {
      AddressLater(i.mmode, s, lo, hi, d);
    } else if i.Write? {
      AddressLater(i.wmode, s, lo, hi, d);
    } else if i.Implied? {
      ImpliedLater(i.i, s, d);
    } else if i.Unstable? {
      UnstableLater(i.u, i.umode, s, lo, hi, d);
    }
  }

  lemma TrapLater(s: Cpu, ret: Word, brk: bool, vector: Word, d: int)
    ensures Trap(Later(s, d), ret, brk, vector) == Later(Trap(s, ret, brk, vector), d)
  {
    hide U8, Lo, Hi, Packed;
  }

  lemma HappenLater(e: Event, s: Cpu, d: int)
    ensures Happen(e, Later(s, d)) == Later(Happen(e, s), d)
  {
    hide Exec, Decode, Packed, U16, Trap;
    TrapLater(s, U16(s.pc + 2), true, 0xfffa, d);
    TrapLater(s, s.pc, false, 0xfffa, d);
    TrapLater(s, s.pc, false, 0xfffe, d);
    if e.Instruction? {
      ExecLater(Decode(Opcode(s)), s, Peek(s.mem, U16(s.pc + 1)), Peek(s.mem, U16(s.pc + 2)), d);
    }
  }

  /** Nothing but the clock depends on the clock.  So a run is the same under a clock that is taken modulo 2^32,
      or that has been moved back. */
  lemma {:induction false} RunLater(s: Cpu, events: seq<Event>, d: int)
    ensures Run(Later(s, d), events) == Later(Run(s, events), d)
    decreases |events|
  {
    hide Happen;
    if events != [] && !Jams(events[0], s) {
      HappenLater(events[0], s, d);
      RunLater(Happen(events[0], s), events[1..], d);
    }
  }

  lemma ExecCycles(i: Instr, s: Cpu, lo: Byte, hi: Byte)
    requires i != JAM
    ensures s.clk + 2 <= Exec(i, s, lo, hi).clk <= s.clk + 8
  {
    hide U16, U8, Lo, Hi, ReadEffect, ModifyEffect, Shifted, TransferEffect, Packed, Unpacked, And, Stored;
  }

  lemma HappenCycles(e: Event, s: Cpu)
    requires !Jams(e, s)
    ensures if Idle(e, s) then Happen(e, s).clk == s.clk else s.clk + 2 <= Happen(e, s).clk <= s.clk + 8
  {
    hide Exec, Decode, Packed, IsJam;
    JamDecoded(Opcode(s));
    if e.Instruction? {
      ExecCycles(Decode(Opcode(s)), s, Peek(s.mem, U16(s.pc + 1)), Peek(s.mem, U16(s.pc + 2)));
    }
  }

  predicate Idle(e: Event, s: Cpu) {
    e.Irq? && Masked(s.r.st, e.sei)
  }

  /** The events of a run that are not masked IRQs. */
  function Taken(s: Cpu, events: seq<Event>): nat
    decreases |events|
  {
    if events == [] then 0 else (if Idle(events[0], s) then 0 else 1) + Taken(Happen(events[0], s), events[1..])
  }

  /** The clock never stands still: every event takes 2 to 8 cycles, but for a masked IRQ, which takes none. */
  lemma {:induction false} RunCycles(s: Cpu, events: seq<Event>)
    requires Survives(s, events)
    ensures s.clk + 2 * Taken(s, events) <= Run(s, events).clk <= s.clk + 8 * Taken(s, events)
    decreases |events|
  {
    hide Happen, Idle;
    if events != [] {
      HappenCycles(events[0], s);
      RunCycles(Happen(events[0], s), events[1..]);
    }
  }
}
