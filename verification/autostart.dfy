/** vice/src/autostart.c: the state machine that resets the machine, types LOAD and RUN, and switches warp mode on for
    the time in between.  What is on the screen, where the program counter is and what the resources say come in with
    the events. */
module Autostart {

  datatype Mode =
    | NONE | ERROR | HASTAPE | PRESSPLAYONTAPE | LOADINGTAPE | HASDISK | LOADINGDISK | HASSNAPSHOT
    | WAITLOADREADY | WAITLOADING | WAITSEARCHINGFOR | INJECT | DONE

  /** The answer of check(). */
  datatype Check = YES | NO | NOT_YET

  /** What one call of autostart_advance finds: whether the initial delay is over, what the screen shows, whether the
      program counter is in the Kernal or in RAM, whether traps serve the drive, and whether an injection succeeds. */
  datatype Input = Input(late: bool, screen: Check, searching: bool, kernal: bool, ram: bool, traps: bool, injected: bool)

  datatype Event = Advance(input: Input) | Attention | Eof | MachineReset

  /** fed counts the run commands in the keyboard buffer's history; attention and eof say that the bus callbacks are
      registered. */
  datatype State = State(
    enabled: bool, autostartWarp: bool, running: bool,
    mode: Mode, warp: int, origWarp: int, enteredRom: bool, waitForReset: bool, ignoreReset: bool,
    attention: bool, eof: bool, fed: nat)

  // ---- specification ----

  function WarpOn(s: State): State {
    if s.autostartWarp then s.(origWarp := s.warp, warp := if s.warp == 0 then 1 else s.warp) else s
  }

  function WarpOff(s: State): State {
    if s.autostartWarp && s.origWarp == 0 then s.(warp := 0) else s
  }

  function Finish(s: State): State {
    if s.running then s.(fed := s.fed + 1) else s
  }

  function Disable(s: State): State {
    if s.enabled then s.(mode := ERROR) else s
  }

  function Done(s: State): State {
    s.(mode := DONE)
  }

  function Loaded(s: State): State {
    Done(Finish(WarpOff(s)))
  }

  function Failed(s: State): State {
    Disable(WarpOff(s))
  }

  /** While loading: notice that the Kernal has been entered, and give up when the program left it by itself. */
  function RomArea(s: State, i: Input): State {
    if !s.enteredRom then (if i.kernal then s.(enteredRom := true) else s)
    else if i.ram then Done(WarpOff(s))
    else s
  }

  function OnScreen(s: State, screen: Check, yes: State): State {
    match screen
    case YES => yes
    case NO => Failed(s)
    case NOT_YET => s
  }

  function Advanced(s: State, i: Input): State {
    match s.mode
    case HASTAPE => OnScreen(s, i.screen, s.(mode := PRESSPLAYONTAPE, enteredRom := false))
    case PRESSPLAYONTAPE => OnScreen(s, i.screen, s.(mode := LOADINGTAPE))
    case LOADINGTAPE => if i.screen == NOT_YET then RomArea(s, i) else OnScreen(s, i.screen, Loaded(s))
    case HASDISK =>
      OnScreen(s, i.screen,
               if i.traps then s.(mode := LOADINGDISK, attention := true)
               else if s.autostartWarp then s.(mode := WAITSEARCHINGFOR)
               else Done(Finish(s)))
    case HASSNAPSHOT => (match i.screen case YES => Done(s) case NO => Disable(s) case NOT_YET => s)
    case WAITSEARCHINGFOR => OnScreen(s, i.screen, s.(mode := WAITLOADING))
    case WAITLOADING =>
      if i.screen == NO && i.searching then s
      else OnScreen(s, i.screen, s.(mode := WAITLOADREADY, enteredRom := false))
    case WAITLOADREADY => if i.screen == NOT_YET then RomArea(s, i) else OnScreen(s, i.screen, Loaded(s))
    case INJECT => if i.injected then s.(mode := WAITLOADREADY) else Failed(s)
    case _ => s
  }

  function OnEof(s: State): State {
    WarpOff(Done(if s.mode != NONE then Finish(s) else s).(eof := false))
  }

  function Aborted(s: State): State {
    (if s.mode != DONE then OnEof(s.(mode := NONE)) else s).(mode := NONE)
  }

  function OnReset(s: State): State {
    if !s.enabled then s
    else if s.ignoreReset || s.mode == NONE || s.mode == ERROR then s.(ignoreReset := false)
    else Aborted(s).(ignoreReset := false)
  }

  /** Callbacks are called only while they are registered. */
  predicate Possible(s: State, e: Event) {
    (e == Attention ==> s.attention) && (e == Eof ==> s.eof)
  }

  function Step(s: State, e: Event): State {
    match e
    case Advance(i) =>
      if !s.enabled then s
      else if !i.late then s.(waitForReset := false)
      else if s.waitForReset then s
      else Advanced(s, i)
    case Attention => s.(attention := false, eof := true)
    case Eof => OnEof(s)
    case MachineReset => OnReset(s)
  }

  /** reboot_for_autostart. */
  function Rebooted(s: State, mode: Mode, run: bool): State {
    if !s.enabled then s
    else
      var t := s.(ignoreReset := true, mode := mode, running := run, waitForReset := true);
      if mode != HASSNAPSHOT then WarpOn(t) else t
  }

  // ---- runs ----

  predicate Plays(s: State, es: seq<Event>)
    decreases |es|
  {
    es == [] || (Possible(s, es[0]) && Plays(Step(s, es[0]), es[1..]))
  }

  function Run(s: State, es: seq<Event>): State
    decreases |es|
  {
    if es == [] then s else Run(Step(s, es[0]), es[1..])
  }

  predicate Finished(m: Mode) {
    m == DONE || m == ERROR || m == NONE
  }

  /** The invariant of an autostart that began with warp mode at w and n run commands fed: warp mode differs from w only
      while it is in progress; a run command is fed only at its end; and the bus callbacks are registered only while a
      disk is loading or after a reset. */
  predicate Keeps(s: State, w: int, n: nat) {
    s.enabled && s.mode != HASSNAPSHOT
    && (s.autostartWarp ==> s.origWarp == w)
    && s.warp == (if w == 0 && s.autostartWarp && !Finished(s.mode) then 1 else w)
    && n <= s.fed <= n + 1 && (!Finished(s.mode) ==> s.fed == n)
    && (s.attention || s.eof ==> s.mode == LOADINGDISK || s.mode == NONE) && !(s.attention && s.eof)
  }

  lemma EndsKeep(s: State, i: Input, w: int, n: nat)
    requires Keeps(s, w, n) && !Finished(s.mode) && s.mode != LOADINGDISK
    ensures Keeps(Loaded(s), w, n) && Keeps(Failed(s), w, n) && Keeps(RomArea(s, i), w, n)
  {
  }

  /** Going on to another step of the same autostart. */
  lemma MoveKeeps(s: State, mode: Mode, w: int, n: nat)
    requires Keeps(s, w, n) && !Finished(s.mode) && s.mode != LOADINGDISK && !Finished(mode) && mode != HASSNAPSHOT
    ensures Keeps(s.(mode := mode), w, n) && Keeps(s.(mode := mode, enteredRom := false), w, n)
    ensures mode == LOADINGDISK ==> Keeps(s.(mode := mode, attention := true), w, n)
    ensures !s.autostartWarp ==> Keeps(Done(Finish(s)), w, n)
  {
  }

  lemma AdvancedKeeps(s: State, i: Input, w: int, n: nat)
    requires Keeps(s, w, n)
    ensures Keeps(Advanced(s, i), w, n)
  {
    hide Loaded, Failed, RomArea, Done, Finish, Keeps;
    KeepsSane(s, w, n);
    if !Finished(s.mode) && s.mode != LOADINGDISK {
      EndsKeep(s, i, w, n);
      forall mode | !Finished(mode) && mode != HASSNAPSHOT
        ensures Keeps(s.(mode := mode), w, n) && Keeps(s.(mode := mode, enteredRom := false), w, n)
        ensures mode == LOADINGDISK ==> Keeps(s.(mode := mode, attention := true), w, n)
        ensures !s.autostartWarp ==> Keeps(Done(Finish(s)), w, n)
      {
        MoveKeeps(s, mode, w, n);
      }
    }
  }

  lemma KeepsSane(s: State, w: int, n: nat)
    requires Keeps(s, w, n)
    ensures s.enabled && s.mode != HASSNAPSHOT
  {
  }

  lemma CallbackKeeps(s: State, w: int, n: nat)
    requires Keeps(s, w, n)
    ensures s.eof ==> Keeps(OnEof(s), w, n)
    ensures Keeps(OnReset(s), w, n)
  {
  }

  lemma StepKeeps(s: State, e: Event, w: int, n: nat)
    requires Keeps(s, w, n) && Possible(s, e)
    ensures Keeps(Step(s, e), w, n)
  {
    hide Advanced, OnEof, OnReset;
    CallbackKeeps(s, w, n);
    if e.Advance? {
      AdvancedKeeps(s, e.input, w, n);
    }
  }

  lemma {:induction false} RunKeeps(s: State, es: seq<Event>, w: int, n: nat)
    requires Keeps(s, w, n) && Plays(s, es)
    ensures Keeps(Run(s, es), w, n)
    decreases |es|
  {
    hide Step, Keeps, Possible;
    if es != [] {
      StepKeeps(s, es[0], w, n);
      RunKeeps(Step(s, es[0]), es[1..], w, n);
    }
  }

  /** An autostart of a tape, a disk or a program file. */
  predicate Starts(mode: Mode) {
    mode == HASTAPE || mode == HASDISK || mode == INJECT
  }

  /** Every run of the autostart leaves warp mode as it was when it ends, and has fed the run command at most once. */
  ghost predicate WellEnded(s: State, mode: Mode, run: bool) {
    forall es :: Plays(Rebooted(s, mode, run), es) ==>
      var t := Run(Rebooted(s, mode, run), es);
      t.fed <= s.fed + 1 && (Finished(t.mode) ==> t.warp == s.warp)
  }

  /** What the screen shows when everything goes well and traps serve the drive. */
  const GOOD := Input(true, YES, false, false, false, true, true)

  /** Bring an autostart to its end, whatever its kind, while a callback of an earlier one is still registered. */
  function Stale(s: State, mode: Mode): seq<Event> {
    [Advance(Input(false, YES, false, false, false, true, true))]
    + (if s.attention then [Attention] else [])
    + (if mode == HASTAPE then [Advance(GOOD), Advance(GOOD), Advance(GOOD), Eof]
       else if mode == HASDISK then [Advance(GOOD), Eof, Attention, Eof]
       else [Advance(GOOD), Advance(GOOD), Eof])
  }

  lemma RunCons(s: State, e: Event, es: seq<Event>)
    ensures Run(s, [e] + es) == Run(Step(s, e), es)
    ensures Plays(s, [e] + es) <==> Possible(s, e) && Plays(Step(s, e), es)
  {
    assert ([e] + es)[1..] == es;
  }

  lemma StartKeeps(s: State, mode: Mode, run: bool)
    requires s.enabled && Starts(mode) && !s.attention && !s.eof
    ensures Keeps(Rebooted(s, mode, run), s.warp, s.fed)
  {
  }

  /** After the reset of the machine with warp mode on and the delay over. */
  function Waiting(s: State, mode: Mode): State {
    Step(Rebooted(s, mode, true), Advance(Input(false, YES, false, false, false, true, true)))
  }

  /** The callback that an earlier autostart has left behind, one step before it runs. */
  function Pending(s: State, mode: Mode): State {
    if s.attention then Step(Waiting(s, mode), Attention) else Waiting(s, mode)
  }

  lemma GoodStep(s: State)
    requires s.enabled && !s.waitForReset
    ensures Step(s, Advance(GOOD)) == Advanced(s, GOOD)
  {
  }

  lemma GoodAdvances(s: State)
    ensures s.mode == HASTAPE ==> Advanced(s, GOOD) == s.(mode := PRESSPLAYONTAPE, enteredRom := false)
    ensures s.mode == PRESSPLAYONTAPE ==> Advanced(s, GOOD) == s.(mode := LOADINGTAPE)
    ensures s.mode == HASDISK ==> Advanced(s, GOOD) == s.(mode := LOADINGDISK, attention := true)
    ensures s.mode == INJECT ==> Advanced(s, GOOD) == s.(mode := WAITLOADREADY)
    ensures s.mode == LOADINGTAPE || s.mode == WAITLOADREADY ==> Advanced(s, GOOD) == Loaded(s)
  {
    hide Loaded;
  }

  /** Both ways to an end feed the run command. */
  lemma EndsFeed(s: State)
    requires s.running && s.mode != NONE
    ensures var t := Loaded(s);
            t.fed == s.fed + 1 && t.mode == DONE && t.running && t.eof == s.eof
    ensures var t := OnEof(s);
            t.fed == s.fed + 1 && t.mode == DONE && t.running && t.attention == s.attention
  {
  }

  lemma EofStep(s: State)
    ensures Step(s, Eof) == OnEof(s) && Step(s, Attention) == s.(attention := false, eof := true)
  {
  }

  lemma StaleTape(s: State)
    requires s.mode == HASTAPE && s.enabled && s.running && !s.waitForReset && s.eof
    ensures var es := [Advance(GOOD), Advance(GOOD), Advance(GOOD), Eof];
            Plays(s, es) && Run(s, es).fed == s.fed + 2
  {
    hide Step, Advanced, Loaded, OnEof;
    var s1 := s.(mode := PRESSPLAYONTAPE, enteredRom := false);
    var s2 := s1.(mode := LOADINGTAPE);
    var s3 := Loaded(s2);
    GoodStep(s);
    GoodAdvances(s);
    GoodStep(s1);
    GoodAdvances(s1);
    GoodStep(s2);
    GoodAdvances(s2);
    EndsFeed(s2);
    EofStep(s3);
    EndsFeed(s3);
    RunCons(s, Advance(GOOD), [Advance(GOOD), Advance(GOOD), Eof]);
    RunCons(s1, Advance(GOOD), [Advance(GOOD), Eof]);
    RunCons(s2, Advance(GOOD), [Eof]);
    RunCons(s3, Eof, []);
  }

  lemma StaleDisk(s: State)
    requires s.mode == HASDISK && s.enabled && s.running && !s.waitForReset && s.eof
    ensures var es := [Advance(GOOD), Eof, Attention, Eof];
            Plays(s, es) && Run(s, es).fed == s.fed + 2
  {
    hide Step, Advanced, OnEof;
    var s1 := s.(mode := LOADINGDISK, attention := true);
    var s2 := OnEof(s1);
    var s3 := s2.(attention := false, eof := true);
    GoodStep(s);
    GoodAdvances(s);
    EofStep(s1);
    EndsFeed(s1);
    EofStep(s2);
    EofStep(s3);
    EndsFeed(s3);
    RunCons(s, Advance(GOOD), [Eof, Attention, Eof]);
    RunCons(s1, Eof, [Attention, Eof]);
    RunCons(s2, Attention, [Eof]);
    RunCons(s3, Eof, []);
  }

  lemma StaleInjection(s: State)
    requires s.mode == INJECT && s.enabled && s.running && !s.waitForReset && s.eof
    ensures var es := [Advance(GOOD), Advance(GOOD), Eof];
            Plays(s, es) && Run(s, es).fed == s.fed + 2
  {
    hide Step, Advanced, Loaded, OnEof;
    var s1 := s.(mode := WAITLOADREADY);
    var s2 := Loaded(s1);
    GoodStep(s);
    GoodAdvances(s);
    GoodStep(s1);
    GoodAdvances(s1);
    EndsFeed(s1);
    EofStep(s2);
    EndsFeed(s2);
    RunCons(s, Advance(GOOD), [Advance(GOOD), Eof]);
    RunCons(s1, Advance(GOOD), [Eof]);
    RunCons(s2, Eof, []);
  }

  /** With a callback left over from an earlier autostart there is a run that types RUN twice. */
  lemma StaleTypesTwice(s: State, mode: Mode)
    requires s.enabled && Starts(mode) && (s.attention || s.eof)
    ensures Plays(Rebooted(s, mode, true), Stale(s, mode))
    ensures Run(Rebooted(s, mode, true), Stale(s, mode)).fed == s.fed + 2
  {
    var start := Rebooted(s, mode, true);
    var first := Advance(Input(false, YES, false, false, false, true, true));
    var last := if mode == HASTAPE then [Advance(GOOD), Advance(GOOD), Advance(GOOD), Eof]
                else if mode == HASDISK then [Advance(GOOD), Eof, Attention, Eof]
                else [Advance(GOOD), Advance(GOOD), Eof];
    var rest := (if s.attention then [Attention] else []) + last;
    assert Stale(s, mode) == [first] + rest;
    RunCons(start, first, rest);
    if s.attention {
      RunCons(Waiting(s, mode), Attention, last);
    } else {
      assert rest == last;
    }
    PendingFacts(s, mode);
    match mode {
      case HASTAPE => StaleTape(Pending(s, mode));
      case HASDISK => StaleDisk(Pending(s, mode));
      case INJECT => StaleInjection(Pending(s, mode));
    }
  }

  lemma PendingFacts(s: State, mode: Mode)
    requires s.enabled && Starts(mode) && (s.attention || s.eof)
    ensures var p := Pending(s, mode);
            p.mode == mode && p.enabled && p.running && !p.waitForReset && p.eof && p.fed == s.fed
  {
  }

  // ---- autostarts that do not type RUN ----

  /** Without the option to run nothing is typed, so a stale callback can do no harm: warp mode is still switched back
      once. */
  predicate Silent(s: State, w: int, n: nat) {
    s.enabled && s.mode != HASSNAPSHOT && !s.running && s.fed == n
    && (s.autostartWarp ==> s.origWarp == w)
    && s.warp == (if w == 0 && s.autostartWarp && !Finished(s.mode) then 1 else w)
  }

  lemma SilentEnds(s: State, i: Input, w: int, n: nat)
    requires Silent(s, w, n)
    ensures Silent(Loaded(s), w, n) && Silent(Failed(s), w, n) && Silent(RomArea(s, i), w, n)
  {
  }

  lemma SilentCallbacks(s: State, w: int, n: nat)
    requires Silent(s, w, n)
    ensures Silent(OnEof(s), w, n) && Silent(OnReset(s), w, n)
  {
    hide OnEof, OnReset;
    SilentEof(s, w, n);
    SilentReset(s, w, n);
  }

  lemma SilentEof(s: State, w: int, n: nat)
    requires Silent(s, w, n)
    ensures Silent(OnEof(s), w, n)
  {
  }

  lemma SilentReset(s: State, w: int, n: nat)
    requires Silent(s, w, n)
    ensures Silent(OnReset(s), w, n)
  {
  }

  lemma SilentMoves(s: State, mode: Mode, w: int, n: nat)
    requires Silent(s, w, n) && !Finished(s.mode) && !Finished(mode) && mode != HASSNAPSHOT
    ensures Silent(s.(mode := mode), w, n) && Silent(s.(mode := mode, enteredRom := false), w, n)
    ensures Silent(s.(mode := mode, attention := true), w, n)
    ensures !s.autostartWarp ==> Silent(Done(Finish(s)), w, n)
  {
  }

  lemma SilentAdvanced(s: State, i: Input, w: int, n: nat)
    requires Silent(s, w, n)
    ensures Silent(Advanced(s, i), w, n)
  {
    hide Loaded, Failed, RomArea, Done, Finish, Silent;
    SilentSane(s, w, n);
    SilentEnds(s, i, w, n);
    if !Finished(s.mode) {
      forall mode | !Finished(mode) && mode != HASSNAPSHOT
        ensures Silent(s.(mode := mode), w, n) && Silent(s.(mode := mode, enteredRom := false), w, n)
        ensures Silent(s.(mode := mode, attention := true), w, n)
        ensures !s.autostartWarp ==> Silent(Done(Finish(s)), w, n)
      {
        SilentMoves(s, mode, w, n);
      }
    }
  }

  lemma SilentSane(s: State, w: int, n: nat)
    requires Silent(s, w, n)
    ensures s.enabled && s.mode != HASSNAPSHOT
  {
  }

  lemma SilentStep(s: State, e: Event, w: int, n: nat)
    requires Silent(s, w, n) && Possible(s, e)
    ensures Silent(Step(s, e), w, n)
  {
    hide Advanced, OnEof, OnReset;
    if e.Advance? {
      SilentAdvanced(s, e.input, w, n);
    } else {
      SilentCallbacks(s, w, n);
    }
  }

  lemma {:induction false} SilentRun(s: State, es: seq<Event>, w: int, n: nat)
    requires Silent(s, w, n) && Plays(s, es)
    ensures Silent(Run(s, es), w, n)
    decreases |es|
  {
    hide Step, Silent, Possible;
    if es != [] {
      SilentStep(s, es[0], w, n);
      SilentRun(Step(s, es[0]), es[1..], w, n);
    }
  }

  /** An autostart ends well in every run exactly if it does not type RUN or no bus callback of an earlier one is left. */
  lemma AutostartEndsWell(s: State, mode: Mode, run: bool)
    requires s.enabled && Starts(mode)
    ensures WellEnded(s, mode, run) <==> !run || (!s.attention && !s.eof)
  {
    hide Step, Rebooted, Plays, Run, Keeps, Silent, Stale;
    var start := Rebooted(s, mode, run);
    if !run {
      SilentStart(s, mode);
      forall es | Plays(start, es)
        ensures var t := Run(start, es);
                t.fed <= s.fed + 1 && (Finished(t.mode) ==> t.warp == s.warp)
      {
        SilentRun(start, es, s.warp, s.fed);
        SilentMeans(Run(start, es), s.warp, s.fed);
      }
    } else if !s.attention && !s.eof {
      StartKeeps(s, mode, run);
      forall es | Plays(start, es)
        ensures var t := Run(start, es);
                t.fed <= s.fed + 1 && (Finished(t.mode) ==> t.warp == s.warp)
      {
        RunKeeps(start, es, s.warp, s.fed);
        KeepsMeans(Run(start, es), s.warp, s.fed);
      }
    } else {
      StaleTypesTwice(s, mode);
      assert Run(start, Stale(s, mode)).fed > s.fed + 1;
    }
  }

  lemma SilentStart(s: State, mode: Mode)
    requires s.enabled && Starts(mode)
    ensures Silent(Rebooted(s, mode, false), s.warp, s.fed)
  {
  }

  lemma SilentMeans(s: State, w: int, n: nat)
    requires Silent(s, w, n)
    ensures s.fed == n && (Finished(s.mode) ==> s.warp == w)
  {
  }

  lemma KeepsMeans(s: State, w: int, n: nat)
    requires Keeps(s, w, n)
    ensures s.fed <= n + 1 && (Finished(s.mode) ==> s.warp == w)
  {
  }

  /** Such a callback is left when the machine is reset while a disk autostart waits for its first bus attention. */
  lemma StaleReachable(s: State)
    requires s.enabled && !s.attention && !s.eof
    ensures var wait := Advance(Input(false, YES, false, false, false, true, true));
            var es := [MachineReset, wait, Advance(GOOD), MachineReset];
            var t := Run(Rebooted(s, HASDISK, true), es);
            Plays(Rebooted(s, HASDISK, true), es) && t.mode == NONE && t.attention && t.warp == s.warp
  {
    var wait := Advance(Input(false, YES, false, false, false, true, true));
    var s0 := Rebooted(s, HASDISK, true);
    var s1 := Step(s0, MachineReset);
    var s2 := Step(s1, wait);
    var s3 := Step(s2, Advance(GOOD));
    RunCons(s0, MachineReset, [wait, Advance(GOOD), MachineReset]);
    RunCons(s1, wait, [Advance(GOOD), MachineReset]);
    RunCons(s2, Advance(GOOD), [MachineReset]);
    RunCons(s3, MachineReset, []);
  }

  // ---- the code ----

  class Autostarter {
    const autostartWarp: bool
    var enabled: bool
    var running: bool
    var mode: Mode
    var warp: int
    var origWarp: int
    var enteredRom: bool
    var waitForReset: bool
    var ignoreReset: bool
    var attention: bool
    var eof: bool
    var fed: nat

    constructor (autostartWarp: bool, warp: int)
      ensures View() == State(true, autostartWarp, false, NONE, warp, -1, false, false, false, false, false, 0)
    {
      this.autostartWarp, this.warp := autostartWarp, warp;
      enabled, running, mode, origWarp := true, false, NONE, -1;
      enteredRom, waitForReset, ignoreReset, attention, eof, fed := false, false, false, false, false, 0;
    }

    ghost function View(): State
      reads this
    {
      State(enabled, autostartWarp, running, mode, warp, origWarp, enteredRom, waitForReset, ignoreReset,
            attention, eof, fed)
    }

    method EnableWarpIfRequested()
      modifies `origWarp, `warp
      ensures View() == WarpOn(old(View()))
    {
      if autostartWarp {
        origWarp := warp;
        if origWarp == 0 {
          warp := 1;
        }
      }
    }

    method DisableWarpIfWasRequested()
      modifies `warp
      ensures View() == WarpOff(old(View()))
    {
      if autostartWarp {
        if origWarp == 0 {
          warp := 0;
        }
      }
    }

    method AutostartDisable()
      modifies `mode
      ensures View() == Disable(old(View()))
    {
      if !enabled {
        return;
      }
      mode := ERROR;
    }

    method AutostartFinish()
      modifies `fed
      ensures View() == Finish(old(View()))
    {
      if running {
        fed := fed + 1;
      }
    }

    method AutostartDone()
      modifies `mode
      ensures View() == Done(old(View()))
    {
      mode := DONE;
    }

    method CheckRomArea(i: Input)
      modifies `enteredRom, `warp, `mode
      ensures View() == RomArea(old(View()), i)
    {
      if !enteredRom {
        if i.kernal {
          enteredRom := true;
        }
      } else {
        if i.ram {
          DisableWarpIfWasRequested();
          AutostartDone();
        }
      }
    }

    /** The cases of a step that has failed, and of one that has loaded the program. */
    method Fail()
      modifies `warp, `mode
      ensures View() == Failed(old(View()))
    {
      DisableWarpIfWasRequested();
      AutostartDisable();
    }

    method Ready()
      modifies `warp, `mode, `fed
      ensures View() == Loaded(old(View()))
    {
      DisableWarpIfWasRequested();
      AutostartFinish();
      AutostartDone();
    }

    method DiskEofCallback()
      modifies `warp, `mode, `fed, `eof
      ensures View() == OnEof(old(View()))
    {
      if mode != NONE {
        AutostartFinish();
      }
      AutostartDone();
      eof := false;
      DisableWarpIfWasRequested();
    }

    method DiskAttentionCallback()
      modifies `attention, `eof
      ensures View() == Step(old(View()), Attention)
    {
      attention := false;
      eof := true;
    }

    method AdvanceHasTape(i: Input)
      requires mode == HASTAPE
      modifies this
      ensures View() == Advanced(old(View()), i)
    {
      match i.screen {
        case YES =>
          mode := PRESSPLAYONTAPE;
          enteredRom := false;
        case NO => Fail();
        case NOT_YET =>
      }
    }

    method AdvancePressPlayOnTape(i: Input)
      requires mode == PRESSPLAYONTAPE
      modifies this
      ensures View() == Advanced(old(View()), i)
    {
      match i.screen {
        case YES => mode := LOADINGTAPE;
        case NO => Fail();
        case NOT_YET =>
      }
    }

    /** advance_loadingtape and advance_waitloadready. */
    method AdvanceLoading(i: Input)
      requires mode == LOADINGTAPE || mode == WAITLOADREADY
      modifies this
      ensures View() == Advanced(old(View()), i)
    {
      match i.screen {
        case YES => Ready();
        case NO => Fail();
        case NOT_YET => CheckRomArea(i);
      }
    }

    method AdvanceHasDisk(i: Input)
      requires mode == HASDISK
      modifies this
      ensures View() == Advanced(old(View()), i)
    {
      match i.screen {
        case YES =>
          if !i.traps {
            if autostartWarp {
              mode := WAITSEARCHINGFOR;
            } else {
              AutostartFinish();
              AutostartDone();
            }
          } else {
            mode := LOADINGDISK;
            attention := true;
          }
        case NO => Fail();
        case NOT_YET =>
      }
    }

    method AdvanceHasSnapshot(i: Input)
      requires mode == HASSNAPSHOT
      modifies this
      ensures View() == Advanced(old(View()), i)
    {
      match i.screen {
        case YES => AutostartDone();
        case NO => AutostartDisable();
        case NOT_YET =>
      }
    }

    method AdvanceWaitSearchingFor(i: Input)
      requires mode == WAITSEARCHINGFOR
      modifies this
      ensures View() == Advanced(old(View()), i)
    {
      match i.screen {
        case YES => mode := WAITLOADING;
        case NO => Fail();
        case NOT_YET =>
      }
    }

    method AdvanceWaitLoading(i: Input)
      requires mode == WAITLOADING
      modifies this
      ensures View() == Advanced(old(View()), i)
    {
      match i.screen {
        case YES =>
          enteredRom := false;
          mode := WAITLOADREADY;
        case NO =>
          if i.searching {
            return;
          }
          Fail();
        case NOT_YET =>
      }
    }

    method AdvanceInject(i: Input)
      requires mode == INJECT
      modifies this
      ensures View() == Advanced(old(View()), i)
    {
      if !i.injected {
        Fail();
      } else {
        mode := WAITLOADREADY;
      }
    }

    method AutostartAdvance(i: Input)
      modifies this
      ensures View() == Step(old(View()), Advance(i))
    {
      hide Advanced;
      Idle(View(), i);
      if !enabled {
        return;
      }
      if !i.late {
        waitForReset := false;
        return;
      }
      if waitForReset {
        return;
      }
      match mode {
        case HASTAPE => AdvanceHasTape(i);
        case PRESSPLAYONTAPE => AdvancePressPlayOnTape(i);
        case LOADINGTAPE => AdvanceLoading(i);
        case HASDISK => AdvanceHasDisk(i);
        case HASSNAPSHOT => AdvanceHasSnapshot(i);
        case WAITLOADREADY => AdvanceLoading(i);
        case WAITLOADING => AdvanceWaitLoading(i);
        case WAITSEARCHINGFOR => AdvanceWaitSearchingFor(i);
        case INJECT => AdvanceInject(i);
        case _ =>
      }
    }

    method SetMode(newMode: Mode)
      modifies `mode
      ensures View() == old(View()).(mode := newMode)
    {
      mode := newMode;
    }

    /** A reset while something is in progress or done. */
    method Abort()
      modifies this
      ensures View() == Aborted(old(View()))
    {
      hide OnEof, Autostarter.View;
      Viewed();
      var oldMode := mode;
      SetMode(NONE);
      if oldMode != DONE {
        DiskEofCallback();
      }
      SetMode(NONE);
    }

    lemma Viewed()
      ensures View().mode == mode
    {
    }

    method AutostartReset()
      modifies this
      ensures View() == OnReset(old(View()))
    {
      hide OnEof, Aborted;
      if !enabled {
        return;
      }
      if !ignoreReset && mode != NONE && mode != ERROR {
        Abort();
      }
      ignoreReset := false;
    }

    method RebootForAutostart(newMode: Mode, run: bool)
      modifies this
      ensures View() == Rebooted(old(View()), newMode, run)
    {
      hide WarpOn;
      if !enabled {
        return;
      }
      ignoreReset := true;
      mode := newMode;
      running := run;
      waitForReset := true;
      if newMode != HASSNAPSHOT {
        EnableWarpIfRequested();
      }
    }

    method Handle(e: Event)
      requires Possible(View(), e)
      modifies this
      ensures View() == Step(old(View()), e)
    {
      match e {
        case Advance(i) => AutostartAdvance(i);
        case Attention => DiskAttentionCallback();
        case Eof => DiskEofCallback();
        case MachineReset => AutostartReset();
      }
    }

    /** A whole autostart: warp mode is as before when it has ended, and the run command is fed at most once. */
    method WholeRun(newMode: Mode, run: bool, es: seq<Event>)
      requires enabled && Starts(newMode) && !attention && !eof
      requires Plays(Rebooted(View(), newMode, run), es)
      modifies this
      ensures View() == Run(Rebooted(old(View()), newMode, run), es)
      ensures fed <= old(fed) + 1 && (Finished(mode) ==> warp == old(warp))
    {
      hide Step, Rebooted, Keeps, Possible;
      ghost var s := View();
      StartKeeps(s, newMode, run);
      RunKeeps(Rebooted(s, newMode, run), es, warp, fed);
      RebootForAutostart(newMode, run);
      var k := 0;
      while k < |es|
        invariant 0 <= k <= |es|
        invariant Plays(View(), es[k..])
        invariant Run(Rebooted(s, newMode, run), es) == Run(View(), es[k..])
      {
        assert es[k..][1..] == es[k + 1..];
        Handle(es[k]);
        k := k + 1;
      }
      KeepsMeans(View(), s.warp, s.fed);
    }
  }

  lemma Idle(s: State, i: Input)
    ensures s.mode == NONE || s.mode == ERROR || s.mode == LOADINGDISK || s.mode == DONE ==> Advanced(s, i) == s
  {
  }
}
