/** When an autostart types RUN and when it must not: what every answer of the screen does in every mode, and which
    answers a run needs. */
module AutostartLaws {
  import opened Autostart

  /** The state machine looks at the screen: autostart is enabled and the reset and the delay are over. */
  predicate Acting(s: State) {
    s.enabled && !s.waitForReset
  }

  function WarpBack(s: State): int {
    if s.autostartWarp && s.origWarp == 0 then 0 else s.warp
  }

  /** Modes that wait for an answer of the screen. */
  predicate Asking(m: Mode) {
    m == HASTAPE || m == PRESSPLAYONTAPE || m == LOADINGTAPE || m == HASDISK || m == WAITSEARCHINGFOR || m == WAITLOADING
    || m == WAITLOADREADY
  }

  // ---- answers ----

  /** Something else than what is expected on the screen ends the autostart with an error: nothing is typed and warp mode
      is back.  Only in WAITLOADING a remaining SEARCHING FOR does no harm. */
  lemma NoFails(s: State, i: Input)
    requires Acting(s) && i.late && i.screen == NO
    ensures Asking(s.mode) && !(s.mode == WAITLOADING && i.searching) ==>
              Step(s, Advance(i)) == s.(mode := ERROR, warp := WarpBack(s))
    ensures s.mode == WAITLOADING && i.searching ==> Step(s, Advance(i)) == s
    ensures s.mode == HASSNAPSHOT ==> Step(s, Advance(i)) == s.(mode := ERROR)
  {
  }

  /** So does an injection that fails. */
  lemma InjectionMeans(s: State, i: Input)
    requires Acting(s) && i.late && s.mode == INJECT
    ensures Step(s, Advance(i)) == if i.injected then s.(mode := WAITLOADREADY)
                                   else s.(mode := ERROR, warp := WarpBack(s))
  {
  }

  /** A program that was loading and starts by itself, in RAM after the Kernal, ends the autostart: nothing is typed and
      warp mode is back.  Otherwise an autostart without an answer goes on waiting. */
  lemma NotYetWaits(s: State, i: Input)
    requires Acting(s) && i.late && i.screen == NOT_YET && (Asking(s.mode) || s.mode == HASSNAPSHOT)
    ensures var watches := s.mode == LOADINGTAPE || s.mode == WAITLOADREADY;
            Step(s, Advance(i)) == if watches && s.enteredRom && i.ram then s.(mode := DONE, warp := WarpBack(s))
                                   else s.(enteredRom := s.enteredRom || (watches && i.kernal))
  {
  }

  /** The mode behind an answer that was expected. */
  function Next(s: State, i: Input): Mode {
    match s.mode
    case HASTAPE => PRESSPLAYONTAPE
    case PRESSPLAYONTAPE => LOADINGTAPE
    case HASDISK => if i.traps then LOADINGDISK else if s.autostartWarp then WAITSEARCHINGFOR else DONE
    case WAITSEARCHINGFOR => WAITLOADING
    case WAITLOADING => WAITLOADREADY
    case _ => DONE
  }

  /** Answers that end the autostart with RUN. */
  predicate Ready(s: State, i: Input) {
    i.screen == YES
    && (s.mode == LOADINGTAPE || s.mode == WAITLOADREADY || (s.mode == HASDISK && !i.traps && !s.autostartWarp))
  }

  /** The expected answer leads to the next mode; RUN is typed, if that is wanted, when the program has been loaded. */
  lemma YesAdvances(s: State, i: Input)
    requires Acting(s) && i.late && i.screen == YES && (Asking(s.mode) || s.mode == HASSNAPSHOT)
    ensures var t := Step(s, Advance(i));
            && t.mode == Next(s, i) && t.fed == s.fed + (if Ready(s, i) && s.running then 1 else 0)
            && t.warp == (if s.mode == LOADINGTAPE || s.mode == WAITLOADREADY then WarpBack(s) else s.warp)
            && t.attention == (s.attention || (s.mode == HASDISK && i.traps))
            && t.enteredRom == (s.enteredRom && s.mode != HASTAPE && s.mode != WAITLOADING)
            && Rest(s, t)
  {
    Acts(s, i);
    hide Step, Rest, WarpBack;
    if s.mode == LOADINGTAPE || s.mode == WAITLOADREADY {
      YesLoaded(s, i);
    } else if s.mode == HASDISK {
      YesDisk(s, i);
    } else {
      YesGoesOn(s, i);
    }
  }

  lemma YesLoaded(s: State, i: Input)
    requires i.screen == YES && (s.mode == LOADINGTAPE || s.mode == WAITLOADREADY)
    ensures var t := Advanced(s, i);
            t.mode == DONE && t.fed == s.fed + (if s.running then 1 else 0) && t.warp == WarpBack(s)
            && t.attention == s.attention && t.enteredRom == s.enteredRom && Rest(s, t)
  {
    LoadedEnds(s);
    hide Loaded, Failed, RomArea, WarpBack, Rest;
  }

  lemma YesDisk(s: State, i: Input)
    requires i.screen == YES && s.mode == HASDISK
    ensures var t := Advanced(s, i);
            && t.mode == (if i.traps then LOADINGDISK else if s.autostartWarp then WAITSEARCHINGFOR else DONE)
            && t.fed == s.fed + (if s.running && !i.traps && !s.autostartWarp then 1 else 0) && t.warp == s.warp
            && t.attention == (s.attention || i.traps) && t.enteredRom == s.enteredRom && Rest(s, t)
  {
    hide Loaded, Failed, RomArea;
  }

  lemma YesGoesOn(s: State, i: Input)
    requires i.screen == YES
    requires s.mode == HASTAPE || s.mode == PRESSPLAYONTAPE || s.mode == WAITSEARCHINGFOR || s.mode == WAITLOADING
             || s.mode == HASSNAPSHOT
    ensures var t := Advanced(s, i);
            && t.mode == Next(s, i) && t.enteredRom == (s.enteredRom && s.mode != HASTAPE && s.mode != WAITLOADING)
            && t.fed == s.fed && t.warp == s.warp && t.attention == s.attention && Rest(s, t)
  {
    hide Loaded, Failed, RomArea;
  }

  /** An answer that is not positive. */
  lemma NothingTyped(s: State, i: Input)
    requires i.screen != YES && s.mode != INJECT
    ensures var t := Advanced(s, i); t.fed == s.fed && t.autostartWarp == s.autostartWarp
    ensures var m := Advanced(s, i).mode; s.enabled ==> m == s.mode || m == DONE || m == ERROR
  {
    FailedEnds(s);
    RomAreaEnds(s, i);
    hide Loaded, Failed, RomArea;
  }

  /** What no answer changes. */
  predicate Rest(s: State, t: State) {
    t.enabled == s.enabled && t.autostartWarp == s.autostartWarp && t.running == s.running && t.origWarp == s.origWarp
    && t.waitForReset == s.waitForReset && t.ignoreReset == s.ignoreReset && t.eof == s.eof
  }

  lemma Acts(s: State, i: Input)
    requires Acting(s) && i.late
    ensures Step(s, Advance(i)) == Advanced(s, i)
  {
    hide Advanced;
  }

  /** The three ways to an end. */
  lemma LoadedEnds(s: State)
    ensures var t := Loaded(s);
            t.mode == DONE && t.fed == s.fed + (if s.running then 1 else 0) && t.warp == WarpBack(s)
            && t.attention == s.attention && t.enteredRom == s.enteredRom && Rest(s, t)
  {
  }

  lemma FailedEnds(s: State)
    ensures var t := Failed(s);
            t.fed == s.fed && t.mode == (if s.enabled then ERROR else s.mode) && t.autostartWarp == s.autostartWarp
  {
  }

  lemma RomAreaEnds(s: State, i: Input)
    ensures var t := RomArea(s, i);
            t.fed == s.fed && (t.mode == DONE || t.mode == s.mode) && t.autostartWarp == s.autostartWarp
  {
  }

  // ---- when RUN is typed ----

  predicate Types(s: State, e: Event) {
    s.running
    && ((e == Eof && s.mode != NONE) || (e.Advance? && Acting(s) && e.input.late && Ready(s, e.input)))
  }

  /** RUN is typed by the end of a file and by READY after loading, and by no other step; a reset does not type it, though
      it calls what the end of a file calls. */
  lemma TypesExactly(s: State, e: Event)
    ensures Step(s, e).fed == s.fed + (if Types(s, e) then 1 else 0)
  {
    hide Ready, Acting, Types;
    if e.Advance? {
      AdvanceTypes(s, e.input);
    } else {
      CallbackTypes(s, e);
    }
  }

  lemma AdvanceTypes(s: State, i: Input)
    ensures Step(s, Advance(i)).fed == s.fed + (if Types(s, Advance(i)) then 1 else 0)
  {
    if Acting(s) && i.late {
      Acts(s, i);
      if s.mode == INJECT {
        InjectionMeans(s, i);
      } else if i.screen != YES {
        NothingTyped(s, i);
      } else if Asking(s.mode) || s.mode == HASSNAPSHOT {
        YesAdvances(s, i);
      } else {
        Idle(s, i);
      }
      hide Step, Advanced, Next, WarpBack, Rest;
    } else {
      hide Advanced, Ready;
    }
  }

  lemma CallbackTypes(s: State, e: Event)
    requires !e.Advance?
    ensures Step(s, e).fed == s.fed + (if Types(s, e) then 1 else 0)
  {
    EofEnds(s);
    EofEnds(s.(mode := NONE));
    hide Advanced, OnEof;
  }

  lemma EofEnds(s: State)
    ensures OnEof(s).fed == s.fed + (if s.running && s.mode != NONE then 1 else 0)
  {
    var t := if s.mode != NONE then Finish(s) else s;
    WarpOnly(Done(t).(eof := false));
    hide WarpOff;
  }

  lemma WarpOnly(s: State)
    ensures WarpOff(s).fed == s.fed && WarpOff(s).mode == s.mode
  {
  }

  /** How often a run types RUN. */
  function Typed(s: State, es: seq<Event>): nat
    decreases |es|
  {
    if es == [] then 0 else (if Types(s, es[0]) then 1 else 0) + Typed(Step(s, es[0]), es[1..])
  }

  lemma {:induction false} RunTypes(s: State, es: seq<Event>)
    ensures Run(s, es).fed == s.fed + Typed(s, es)
    decreases |es|
  {
    hide Step, Types;
    if es != [] {
      TypesExactly(s, es[0]);
      RunTypes(Step(s, es[0]), es[1..]);
    }
  }

  // ---- which answers a run needs ----

  /** The answers that are still missing before RUN; when the traps serve the drive it is the end of the file that types
      it. */
  function Missing(s: State): nat {
    match s.mode
    case HASTAPE => 3
    case PRESSPLAYONTAPE => 2
    case LOADINGTAPE => 1
    case HASDISK => if s.autostartWarp then 4 else 1
    case WAITSEARCHINGFOR => 3
    case WAITLOADING => 2
    case WAITLOADREADY => 1
    case INJECT => 2
    case _ => 0
  }

  predicate Positive(e: Event) {
    e.Advance? && e.input.late && (e.input.screen == YES || e.input.injected)
  }

  function Answers(es: seq<Event>): nat {
    if es == [] then 0 else (if Positive(es[0]) then 1 else 0) + Answers(es[1..])
  }

  /** An autostart that is over, or that waits for the end of the file. */
  predicate Over(m: Mode) {
    m == NONE || m == ERROR || m == DONE || m == LOADINGDISK || m == HASSNAPSHOT
  }

  lemma StepMissing(s: State, e: Event)
    requires e != Eof
    ensures var t := Step(s, e);
            (Over(s.mode) ==> Over(t.mode))
            && (!Over(s.mode) ==> Over(t.mode) || Missing(t) + (if Positive(e) then 1 else 0) >= Missing(s))
            && (Types(s, e) ==> Missing(s) == 1 && Positive(e) && Over(t.mode) && !Over(s.mode))
  {
    if !e.Advance? {
      hide Advanced, OnEof;
    } else if Acting(s) && e.input.late {
      Acts(s, e.input);
      hide Step, Types;
      AdvancedMissing(s, e.input);
      OnlyReady(s, e.input);
    } else {
      hide Advanced, Ready;
    }
  }

  lemma OnlyReady(s: State, i: Input)
    ensures Types(s, Advance(i)) ==> Ready(s, i)
  {
    hide Ready;
  }

  lemma AdvancedMissing(s: State, i: Input)
    requires Acting(s)
    ensures var t := Advanced(s, i);
            (Over(s.mode) ==> Over(t.mode))
            && (!Over(s.mode) ==> Over(t.mode) || Missing(t) + (if i.screen == YES || i.injected then 1 else 0) >= Missing(s))
            && (Ready(s, i) ==> Missing(s) == 1 && Over(t.mode) && !Over(s.mode))
  {
    hide Advanced, WarpBack, Rest;
    if s.mode == INJECT {
      assert Advanced(s, i).mode == (if i.injected then WAITLOADREADY else ERROR) by { Injects(s, i); }
    } else if i.screen != YES {
      NothingTyped(s, i);
    } else if s.mode == LOADINGTAPE || s.mode == WAITLOADREADY {
      YesLoaded(s, i);
    } else if s.mode == HASDISK {
      YesDisk(s, i);
    } else if Asking(s.mode) || s.mode == HASSNAPSHOT {
      YesGoesOn(s, i);
    } else {
      Idle(s, i);
    }
  }

  lemma Injects(s: State, i: Input)
    requires s.enabled && s.mode == INJECT
    ensures Advanced(s, i).mode == if i.injected then WAITLOADREADY else ERROR
  {
    FailedEnds(s);
    hide Failed, Loaded, RomArea;
  }

  /** Without the end of a file RUN is not typed before all answers have come, one after the other, whatever else happens;
      and not at all when the autostart is over. */
  lemma {:induction false} NeedsAnswers(s: State, es: seq<Event>)
    requires Eof !in es
    ensures Typed(s, es) > 0 ==> !Over(s.mode) && Answers(es) >= Missing(s)
    decreases |es|
  {
    hide Step, Types, Positive;
    if es != [] {
      StepMissing(s, es[0]);
      NeedsAnswers(Step(s, es[0]), es[1..]);
    }
  }

  /** The screen does not show anything new yet, and no program has left the Kernal. */
  predicate Waiting(i: Input) {
    i.late && i.screen == NOT_YET && !i.ram
  }

  /** The good answer, with a drive that traps do not serve. */
  const SERVED := Input(true, YES, false, false, false, false, true)

  /** All good answers, each after a time of waiting. */
  function Patient(waits: seq<seq<Input>>): seq<Event> {
    if waits == [] then [] else Inputs(waits[0]) + [Advance(SERVED)] + Patient(waits[1..])
  }

  function Inputs(wait: seq<Input>): seq<Event> {
    if wait == [] then [] else [Advance(wait[0])] + Inputs(wait[1..])
  }

  lemma {:induction false} RunAppend(s: State, es: seq<Event>, more: seq<Event>)
    ensures Run(s, es + more) == Run(Run(s, es), more)
    decreases |es|
  {
    hide Step;
    if es == [] {
      assert es + more == more;
    } else {
      assert (es + more)[1..] == es[1..] + more;
      RunAppend(Step(s, es[0]), es[1..], more);
    }
  }

  lemma {:induction false} WaitsOn(s: State, wait: seq<Input>)
    requires Acting(s) && Asking(s.mode) && (forall i :: i in wait ==> Waiting(i))
    ensures var t := Run(s, Inputs(wait)); t == s.(enteredRom := t.enteredRom)
    decreases |wait|
  {
    hide Step, Acting, Asking, Waiting;
    if wait != [] {
      var t := Step(s, Advance(wait[0]));
      assert t == s.(enteredRom := t.enteredRom) && Acting(t) && Asking(t.mode) by { OneWait(s, wait[0]); }
      WaitsOn(t, wait[1..]);
      assert Inputs(wait)[1..] == Inputs(wait[1..]);
    }
  }

  lemma OneWait(s: State, i: Input)
    requires Acting(s) && Asking(s.mode) && Waiting(i)
    ensures var t := Step(s, Advance(i)); t == s.(enteredRom := t.enteredRom) && Acting(t) && Asking(t.mode)
  {
    NotYetWaits(s, i);
  }

  /** After a good answer one is missing less, or it was the last one. */
  lemma Served(s: State)
    requires Acting(s) && (Asking(s.mode) || s.mode == INJECT)
    ensures var t := Step(s, Advance(SERVED));
            && Acting(t) && t.running == s.running && t.autostartWarp == s.autostartWarp && t.origWarp == s.origWarp
            && (if Missing(s) == 1 then t.mode == DONE && t.fed == s.fed + (if s.running then 1 else 0) && t.warp == WarpBack(s)
                else Asking(t.mode) && t.mode != HASDISK && Missing(t) == Missing(s) - 1 && t.fed == s.fed && t.warp == s.warp)
  {
    if s.mode == INJECT {
      InjectionMeans(s, SERVED);
    } else {
      YesAdvances(s, SERVED);
    }
    hide Step;
  }

  /** With all the answers that are missing, however long each of them takes, the program is loaded, RUN is typed once if
      that is wanted, and warp mode is back. */
  lemma {:induction false} PatientSucceeds(s: State, waits: seq<seq<Input>>)
    requires Acting(s) && (Asking(s.mode) || s.mode == INJECT) && |waits| == Missing(s)
    requires forall k :: 0 <= k < |waits| ==> forall i :: i in waits[k] ==> Waiting(i)
    requires s.mode == INJECT ==> waits[0] == []
    ensures var t := Run(s, Patient(waits));
            t.mode == DONE && t.fed == s.fed + (if s.running then 1 else 0) && t.warp == WarpBack(s)
    decreases |waits|
  {
    hide Step, Acting, Waiting, Run;
    var w := Inputs(waits[0]);
    var rest := Patient(waits[1..]);
    assert Patient(waits) == w + ([Advance(SERVED)] + rest);
    RunAppend(s, w, [Advance(SERVED)] + rest);
    if s.mode == INJECT {
      assert w == [];
      RunNothing(s);
    } else {
      WaitsOn(s, waits[0]);
    }
    var u := Run(s, w);
    ActsOn(s, u);
    Served(u);
    RunCons(u, Advance(SERVED), rest);
    var v := Step(u, Advance(SERVED));
    if Missing(s) == 1 {
      assert rest == [];
      RunNothing(v);
    } else {
      PatientSucceeds(v, waits[1..]);
    }
  }

  lemma RunNothing(s: State)
    ensures Run(s, []) == s
  {
  }

  lemma ActsOn(s: State, u: State)
    requires u == s.(enteredRom := u.enteredRom) && Acting(s) && (Asking(s.mode) || s.mode == INJECT)
    ensures Acting(u) && (Asking(u.mode) || u.mode == INJECT) && Missing(u) == Missing(s) && WarpBack(u) == WarpBack(s)
  {
  }

  /** With traps the end of the file types RUN. */
  lemma TrapsSucceed(s: State, i: Input)
    requires Acting(s) && s.mode == HASDISK && i.late && i.screen == YES && i.traps && !s.eof
    ensures var es := [Advance(i), Attention, Eof];
            var t := Run(s, es);
            Plays(s, es) && t.mode == DONE && t.fed == s.fed + (if s.running then 1 else 0) && t.warp == WarpBack(s)
            && !t.attention && !t.eof
  {
    var s1 := Step(s, Advance(i));
    var s2 := Step(s1, Attention);
    RunCons(s, Advance(i), [Attention, Eof]);
    RunCons(s1, Attention, [Eof]);
    RunCons(s2, Eof, []);
  }

  /** A whole autostart of a tape, a disk or a program file: the reset it causes is not taken for one of the user, and
      after the delay it succeeds with the answers it needs. */
  lemma StartSucceeds(s: State, mode: Mode, run: bool, delay: Input, waits: seq<seq<Input>>)
    requires s.enabled && Starts(mode) && !delay.late
    requires |waits| == Missing(Rebooted(s, mode, run))
    requires forall k :: 0 <= k < |waits| ==> forall i :: i in waits[k] ==> Waiting(i)
    requires mode == INJECT ==> waits[0] == []
    ensures var t := Run(Rebooted(s, mode, run), [MachineReset, Advance(delay)] + Patient(waits));
            t.mode == DONE && t.fed == s.fed + (if run then 1 else 0) && t.warp == s.warp
  {
    hide Step, Acting, Asking, Waiting, Run, Rebooted, Patient, Missing, WarpBack, Starts;
    var s0 := Rebooted(s, mode, run);
    var s1 := Step(s0, MachineReset);
    var s2 := Step(s1, Advance(delay));
    StartActs(s, mode, run, delay);
    assert [MachineReset, Advance(delay)] + Patient(waits) == [MachineReset] + ([Advance(delay)] + Patient(waits));
    RunCons(s0, MachineReset, [Advance(delay)] + Patient(waits));
    RunCons(s1, Advance(delay), Patient(waits));
    PatientSucceeds(s2, waits);
  }

  lemma StartActs(s: State, mode: Mode, run: bool, delay: Input)
    requires s.enabled && Starts(mode) && !delay.late
    ensures var s0 := Rebooted(s, mode, run);
            var s2 := Step(Step(s0, MachineReset), Advance(delay));
            && Acting(s2) && s2.mode == mode && (Asking(mode) || mode == INJECT) && Missing(s2) == Missing(s0)
            && s2.running == run && s2.fed == s.fed && WarpBack(s2) == s.warp
  {
  }
}
