/** Programs on the 65816 core: any sequence of the modelled instructions, and a block move from its first execution
    to its last. */
module Programs65816 {
  import opened Bits
  import opened Isa65816
  import opened Modes65816
  import opened BlockMoves
  import opened Core65816

  /** The switch, for instructions that move registers. */
  method ExecuteMoves(core: Core, i: Instr)
    requires i.LoadIndex? || i.CountIndex? || i.Tax? || i.Tsx? || i.Txa? || i.Accumulate? || i.Flags?
    modifies core
    ensures core.View() == Step(old(core.View()), i)
  {
    hide WithIndex, WithAccumulator, Core.St, U16;
    match i {
      case LoadIndex(r, v) => core.SetIndex(r, v);
      case CountIndex(r, step) => core.SetIndex(r, U16((if r == X then core.x else core.y) + step));
      case Tax(r) => core.SetIndex(r, core.c);
      case Tsx => core.SetIndex(X, core.sp);
      case Txa(r) => core.SetAccumulator(if r == X then core.x else core.y);
      case Accumulate(v) => core.SetAccumulator(v);
      case Flags(st) => core.SetFlags(st);
    }
  }

  method ExecuteStack(core: Core, i: Instr)
    requires i.PushIndex? || i.PushA? || i.PushByte? || i.PushTwo? || i.PullIndex? || i.PullA? || i.PullDbr?
             || i.PullStatus? || i.PullDirect?
    modifies core
    ensures core.View() == Step(old(core.View()), i)
  {
    hide Core.View, Push, PushWide, PushWordRaw;
    core.Viewed();
    match i {
      case PushIndex(r) => core.StoreStack(if r == X then core.x else core.y, core.LocalX());
      case PushA => core.StoreStack(core.c, core.LocalM());
      case PushByte(v) => Mod8Byte(v); core.PushByte(v);
      case PushTwo(w) => core.PushTwoRaw(w);
      case PullIndex(r) => core.Pli(r);
      case PullA => core.Pla();
      case PullDbr => core.Plb();
      case PullStatus => core.Plp();
      case PullDirect => core.Pld();
    }
  }

  method ExecuteControl(core: Core, i: Instr)
    requires i.Call? || i.CallIndexed? || i.CallLong? || i.Return? || i.ReturnLong?
    modifies core
    ensures core.View() == Step(old(core.View()), i)
  {
    hide Core.View, Jsr, JsrIndexed, Jsl, Rts, Rtl;
    match i {
      case Call => core.JsrAbs();
      case CallIndexed => core.JsrIndX();
      case CallLong => core.JsrLong();
      case Return => core.RtsMacro();
      case ReturnLong => core.RtlMacro();
    }
  }

  method ExecuteModes(core: Core, i: Instr)
    requires i.SetMode? || i.ExchangeCarry? || i.ReturnFromInterrupt? || i.Interrupt? || i.Reset?
    modifies core
    ensures core.View() == Step(old(core.View()), i)
  {
    hide Core.View, RepSep, Xce, Rti, Enter, ResetState;
    match i {
      case SetMode(mask, on) => core.RepSepMask(mask, on);
      case ExchangeCarry => core.ExchangeCE();
      case ReturnFromInterrupt => core.RtiMacro();
      case Interrupt(k) => core.EnterMacro(k);
      case Reset => core.Res();
    }
  }

  /** A store, or a jump. */
  method ExecuteWrite(core: Core, i: Instr)
    requires i.Store? || i.Jump?
    modifies core
    ensures core.View() == Step(old(core.View()), i)
  {
    if i.Store? {
      core.mem := core.mem[i.addr := i.byte];
    } else {
      core.pbr, core.pc := i.pbr, i.pc;
    }
  }

  method ExecuteBlockMove(core: Core, i: Instr)
    requires i.BlockMove? && (i.step == 1 || i.step == -1)
    modifies core
    ensures core.View() == Step(old(core.View()), i)
  {
    hide Core.View, Move;
    core.MoveMacro(i.step);
  }

  method Execute(core: Core, i: Instr)
    requires i.BlockMove? ==> i.step == 1 || i.step == -1
    modifies core
    ensures core.View() == Step(old(core.View()), i)
  {
    hide Step, Core.View;
    match i {
      case LoadIndex(_, _) => ExecuteMoves(core, i);
      case CountIndex(_, _) => ExecuteMoves(core, i);
      case Tax(_) => ExecuteMoves(core, i);
      case Tsx => ExecuteMoves(core, i);
      case Txa(_) => ExecuteMoves(core, i);
      case Accumulate(_) => ExecuteMoves(core, i);
      case Flags(_) => ExecuteMoves(core, i);
      case PushIndex(_) => ExecuteStack(core, i);
      case PushA => ExecuteStack(core, i);
      case PushByte(_) => ExecuteStack(core, i);
      case PushTwo(_) => ExecuteStack(core, i);
      case PullIndex(_) => ExecuteStack(core, i);
      case PullA => ExecuteStack(core, i);
      case PullDbr => ExecuteStack(core, i);
      case PullStatus => ExecuteStack(core, i);
      case PullDirect => ExecuteStack(core, i);
      case BlockMove(_) => ExecuteBlockMove(core, i);
      case Store(_, _) => ExecuteWrite(core, i);
      case Jump(_, _) => ExecuteWrite(core, i);
      case Call => ExecuteControl(core, i);
      case CallIndexed => ExecuteControl(core, i);
      case CallLong => ExecuteControl(core, i);
      case Return => ExecuteControl(core, i);
      case ReturnLong => ExecuteControl(core, i);
      case SetMode(_, _) => ExecuteModes(core, i);
      case ExchangeCarry => ExecuteModes(core, i);
      case ReturnFromInterrupt => ExecuteModes(core, i);
      case Interrupt(_) => ExecuteModes(core, i);
      case Reset => ExecuteModes(core, i);
      case _ => core.Transfer(i);
    }
  }

  /** Any program keeps the width invariant from a reset on. */
  method RunProgram(core: Core, prog: seq<Instr>)
    requires forall k :: 0 <= k < |prog| && prog[k].BlockMove? ==> prog[k].step == 1 || prog[k].step == -1
    modifies core
    ensures core.View() == Run(old(core.View()), [Reset] + prog) && Widths(core.View())
  {
    hide Step, Core.View, Widths;
    ghost var s := core.View();
    RunWidths(s, [Reset] + prog);
    core.Res();
    ResetIsStep(s);
    assert ([Reset] + prog)[1..] == prog;
    var k := 0;
    while k < |prog|
      invariant 0 <= k <= |prog|
      invariant Run(s, [Reset] + prog) == Run(core.View(), prog[k..])
    {
      assert prog[k..][1..] == prog[k + 1..];
      Execute(core, prog[k]);
      k := k + 1;
    }
  }

  lemma ResetIsStep(s: Cpu)
    ensures Step(s, Reset) == ResetState(s)
  {
  }

  lemma MoveCounts(s: Cpu, step: int)
    ensures Move(s, step).pc == (if s.c == 0 then U16(s.pc + 3) else s.pc)
    ensures Move(s, step).c == (if s.c == 0 then 0xffff else s.c - 1)
    ensures U16(s.pc + 3) != s.pc
  {
  }

  /** The main loop for as long as it stays on a block move: before every execution the opcode is fetched again, and
      whichever move it has become is executed. */
  method RunBlockMove(core: Core) returns (executions: nat)
    modifies core
    ensures core.View() == Turns(old(core.View()), executions)
    ensures var s := old(core.View());
            forall k :: 0 <= k < executions ==> Turns(s, k).pc == s.pc && IsMove(Turns(s, k))
    ensures core.pc != old(core.pc) || !IsMove(core.View())
    ensures executions <= old(core.c) + 1
    ensures Starts(old(core.View())) && Intact(old(core.View())) ==>
              executions == old(core.c) + 1 && core.View() == After(old(core.View()), executions)
  {
    hide Move, Along, Intact, Widths, Core.St, U16, MemoryAfter, StepOf, Starts;
    ghost var s := core.View();
    var start := core.pc;
    executions := 0;
    var p0 := core.FetchParam(core.pc);
    while core.pc == start && (p0 == 0x54 || p0 == 0x44)
      invariant p0 == core.FetchParam(core.pc)
      invariant core.View() == Turns(s, executions)
      invariant if core.pc == start then core.c + executions == s.c else executions == s.c + 1
      invariant forall k :: 0 <= k < executions ==> Turns(s, k).pc == start && IsMove(Turns(s, k))
      decreases if core.pc == start then core.c + 1 else 0
    {
      ghost var u := core.View();
      MoveCounts(u, StepOf(u));
      TurnOf(u);
      if p0 == 0x54 {
        core.MoveMacro(1);
      } else {
        core.MoveMacro(-1);
      }
      executions := executions + 1;
      p0 := core.FetchParam(core.pc);
    }
    if Starts(s) && Intact(s) {
      MoveRuns(s, executions);
      if executions <= s.c {
        StillMove(s, core.View());
      }
    }
  }

  lemma TurnOf(u: Cpu)
    ensures IsMove(u) ==> Turn(u) == Move(u, StepOf(u))
    ensures StepOf(u) == if Fetch(u, u.pc) == 0x54 then 1 else -1
  {
    hide Move;
  }

  lemma StillMove(s: Cpu, u: Cpu)
    requires Starts(s) && SameCode(s, u)
    ensures IsMove(u)
  {
    CodeMeans(s, u);
  }
}
