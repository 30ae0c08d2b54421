/** PROCESS_ALARMS of vice/src/6510core.c: the loop that drains the alarm queue at an instruction boundary, with the
    ACIA's callbacks and any others. */
module AlarmLoop {
  import opened Bits
  import opened Wrappers
  import opened AlarmQueue
  import opened AciaSpec
  import opened AciaProperties
  import opened Acia6551

  type Pendings = map<Alarm?, Clock>

  /** What a callback other than the ACIA's does to alarms. */
  datatype Action = SetAt(alarm: Alarm, clk: Clock) | Clear(alarm: Alarm)

  /** One callback: the alarm, the clock it was set for, and the offset it was called with. */
  datatype Call = Call(alarm: Alarm?, due: Clock, offset: Clock)

  ghost function Due(m: Pendings, clk: Clock): set<Alarm?> {
    set a | a in m && m[a] <= clk
  }

  /** The contract of callbacks: the alarm that was dispatched is not due any more, and no alarm becomes due. */
  ghost predicate Settles(m: Pendings, n: Pendings, a: Alarm?, clk: Clock) {
    a !in Due(n, clk) && forall b :: b in Due(n, clk) ==> b in m && n[b] == m[b]
  }

  /** Only the alarm itself is touched. */
  ghost predicate Selfish(m: Pendings, n: Pendings, a: Alarm?) {
    m - {a} == n - {a}
  }

  // ---- the loop on pending maps ----

  /** A run of the loop so far: the calls made, in order, and the pending alarms at the start and now. */
  ghost predicate Drained(start: Pendings, now: Pendings, calls: seq<Call>, clk: Clock) {
    && (forall i :: 0 <= i < |calls| ==>
          calls[i].alarm in start && start[calls[i].alarm] == calls[i].due <= clk && calls[i].offset == clk - calls[i].due)
    && (forall i, j :: 0 <= i < j < |calls| ==> calls[i].due <= calls[j].due && calls[i].alarm != calls[j].alarm)
    && (forall a :: a in Due(now, clk) ==> a in start && now[a] == start[a])
    && (forall i, a :: 0 <= i < |calls| && a in Due(now, clk) ==> calls[i].alarm != a && calls[i].due <= now[a])
  }

  /** Every alarm that was due has been called or is still due. */
  ghost predicate Covers(start: Pendings, now: Pendings, calls: seq<Call>, clk: Clock) {
    forall a :: a in Due(start, clk) ==> a in Due(now, clk) || exists i :: 0 <= i < |calls| && calls[i].alarm == a
  }

  lemma DrainStep(start: Pendings, m: Pendings, n: Pendings, calls: seq<Call>, a: Alarm?, clk: Clock)
    requires Drained(start, m, calls, clk) && a in Due(m, clk) && IsEarliest(m, m[a]) && Settles(m, n, a, clk)
    ensures Drained(start, n, calls + [Call(a, m[a], clk - m[a])], clk)
    ensures Due(n, clk) < Due(m, clk)
    ensures Covers(start, m, calls, clk) && Selfish(m, n, a) ==>
              Covers(start, n, calls + [Call(a, m[a], clk - m[a])], clk)
  {
    var more := calls + [Call(a, m[a], clk - m[a])];
    if Covers(start, m, calls, clk) && Selfish(m, n, a) {
      forall b | b in Due(start, clk)
        ensures b in Due(n, clk) || exists i :: 0 <= i < |more| && more[i].alarm == b
      {
        if b == a {
          assert more[|calls|].alarm == b;
        } else if b in Due(m, clk) {
          assert b in m - {a};
          assert b in n - {a} && n[b] == (n - {a})[b] == (m - {a})[b];
        } else {
          var i :| 0 <= i < |calls| && calls[i].alarm == b;
          assert more[i].alarm == b;
        }
      }
    }
  }

  // ---- what the ACIA's callbacks do to the pending map ----

  lemma PartsSelfish(m: Pendings, n: Pendings, a: Alarm, b: Alarm)
    requires a != b && m - {a, b} == n - {a, b} && Find(m, b) == Find(n, b)
    ensures Selfish(m, n, a)
  {
    assert forall k :: k in m - {a} ==> k == b || k in m - {a, b};
    assert forall k :: k in n - {a} ==> k == b || k in n - {a, b};
    forall k | k in m - {a} ensures k in n - {a} && (n - {a})[k] == (m - {a})[k] {
      if k != b {
        assert (m - {a, b})[k] == (n - {a, b})[k];
      }
    }
    forall k | k in n - {a} ensures k in m - {a} {
    }
  }

  lemma SelfishSettles(m: Pendings, n: Pendings, a: Alarm?, clk: Clock)
    requires Selfish(m, n, a) && (a in n ==> n[a] > clk)
    ensures Settles(m, n, a, clk)
  {
    forall b | b in Due(n, clk) ensures b in m && n[b] == m[b] {
      assert b in n - {a};
      assert (n - {a})[b] == n[b] && (m - {a})[b] == m[b];
    }
  }

  // ---- when the ACIA's callbacks settle ----

  predicate TxIsDue(w: World) {
    w.tx.Some? && w.tx.value <= w.now
  }

  predicate RxIsDue(w: World) {
    w.rx.Some? && w.rx.value <= w.now
  }

  /** The deadlines that the callbacks of due alarms are going to set do not wrap. */
  predicate Ends(w: World) {
    (TxIsDue(w) && w.chip.inTx == DR_WRITTEN ==> w.now + w.chip.ticks <= NONE)
    && (RxIsDue(w) ==> w.now + w.chip.ticksRx <= NONE)
  }

  lemma SendOnly(w: World)
    ensures var v := Send(w);
            v.rx == w.rx && v.now == w.now && v.chip.ticks == w.chip.ticks && v.chip.ticksRx == w.chip.ticksRx
            && v.chip.inTx == w.chip.inTx
  {
  }

  lemma TxAlarmOnly(w: World)
    ensures var v := TxAlarm(w);
            v.rx == w.rx && v.now == w.now && v.chip.ticks == w.chip.ticks && v.chip.ticksRx == w.chip.ticksRx
            && v.tx == (if w.chip.inTx <= 1 then None else Some(Wrap(w.now + w.chip.ticks)))
            && v.chip.inTx == (if w.chip.inTx <= 1 then NO_TRANSMIT else w.chip.inTx - 1)
  {
    hide Interrupt, Send, Wrap;
    InterruptOnly(Send(w), true);
    SendOnly(w);
  }

  lemma RxAlarmOnly(w: World, received: Option<Byte>)
    ensures var v := RxAlarm(w, received);
            v.tx == w.tx && v.now == w.now && v.chip.ticks == w.chip.ticks && v.chip.ticksRx == w.chip.ticksRx
            && v.chip.inTx == w.chip.inTx && v.rx == Some(Wrap(w.now + w.chip.ticksRx))
  {
    hide Interrupt, Bit1, Wrap;
    if received.Some? {
      InterruptOnly(w.(chip := w.chip.(rxdata := received.value)), true);
    }
  }

  lemma LaterOrWrapped(now: Clock, ticks: int)
    requires 1 <= ticks <= NONE
    ensures Wrap(now + ticks) > now <==> now + ticks <= NONE
  {
  }

  /** The transmit callback leaves its alarm due exactly if a byte waits and its deadline wraps. */
  lemma TxSettles(w: World)
    requires w.chip.inTx <= DR_WRITTEN && 1 <= w.chip.ticks <= NONE
    ensures !TxIsDue(TxAlarm(w)) <==> w.chip.inTx != DR_WRITTEN || w.now + w.chip.ticks <= NONE
  {
    hide TxAlarm, Wrap;
    TxAlarmOnly(w);
    LaterOrWrapped(w.now, w.chip.ticks);
  }

  /** The receive callback leaves its alarm due exactly if its deadline wraps. */
  lemma RxSettles(w: World, received: Option<Byte>)
    requires 1 <= w.chip.ticksRx <= NONE
    ensures !RxIsDue(RxAlarm(w, received)) <==> w.now + w.chip.ticksRx <= NONE
  {
    hide RxAlarm, Wrap;
    RxAlarmOnly(w, received);
    LaterOrWrapped(w.now, w.chip.ticksRx);
  }

  /** Without a wrap both callbacks keep the loop's condition, and their own alarm is not due any more. */
  lemma TxKeepsEnds(w: World)
    requires Ends(w) && TxIsDue(w) && w.chip.inTx <= DR_WRITTEN && 1 <= w.chip.ticks
    ensures Ends(TxAlarm(w)) && TxAlarm(w).rx == w.rx && !TxIsDue(TxAlarm(w)) && LineLasts(w)
  {
    hide TxAlarm, Wrap;
    TxAlarmOnly(w);
    if w.chip.inTx == DR_WRITTEN {
      LaterOrWrapped(w.now, w.chip.ticks);
    }
  }

  lemma RxKeepsEnds(w: World, received: Option<Byte>)
    requires Ends(w) && RxIsDue(w) && 1 <= w.chip.ticksRx
    ensures Ends(RxAlarm(w, received)) && RxAlarm(w, received).tx == w.tx && !RxIsDue(RxAlarm(w, received))
    ensures RxAlarm(w, received).rx.Some?
  {
    hide RxAlarm, Wrap;
    RxAlarmOnly(w, received);
    LaterOrWrapped(w.now, w.chip.ticksRx);
  }

  /** The transmit callback whose deadline wraps is called a second time at once, and then no more. */
  lemma TxTwice(w: World)
    requires TxIsDue(w) && w.chip.inTx == DR_WRITTEN && w.chip.ticks <= NONE && w.now + w.chip.ticks > NONE
    ensures TxIsDue(TxAlarm(w)) && TxAlarm(TxAlarm(w)).tx.None?
  {
    hide TxAlarm, Wrap;
    TxAlarmOnly(w);
    TxAlarmOnly(TxAlarm(w));
    LaterOrWrapped(w.now, w.chip.ticks);
  }

  /** The receive callback again and again. */
  function RxAlarms(w: World, inputs: seq<Option<Byte>>): World {
    if inputs == [] then w else RxAlarm(RxAlarms(w, inputs[..|inputs| - 1]), inputs[|inputs| - 1])
  }

  /** The receive callback whose deadline wraps is called forever: the loop does not end. */
  lemma {:induction false} RxForever(w: World, inputs: seq<Option<Byte>>)
    requires RxIsDue(w) && w.chip.ticksRx <= NONE && w.now + w.chip.ticksRx > NONE
    ensures var v := RxAlarms(w, inputs);
            RxIsDue(v) && v.now == w.now && v.chip.ticksRx == w.chip.ticksRx
    decreases |inputs|
  {
    hide RxAlarm;
    if inputs != [] {
      var v := RxAlarms(w, inputs[..|inputs| - 1]);
      RxForever(w, inputs[..|inputs| - 1]);
      RxAlarmOnly(v, inputs[|inputs| - 1]);
      RxSettles(v, inputs[|inputs| - 1]);
    }
  }

  // ---- the clock guard ----

  /** CLKGUARD_SUB_MIN, and the clock from which on the guard moves it back. */
  const RESERVE := 0xfffff
  const GUARD_LIMIT := NONE - RESERVE

  /** The guard is asked once a frame; what it leaves is enough for characters that are short enough. */
  lemma GuardSuffices(w: World, frame: nat)
    requires Timed(w) && w.now < GUARD_LIMIT + frame && w.chip.ticksRx + frame <= RESERVE + 1
    ensures Ends(w)
  {
    ReserveLeft(w.now, w.chip.ticks, w.chip.ticksRx, frame);
  }

  lemma ReserveLeft(now: int, ticks: int, ticksRx: int, frame: nat)
    requires now < GUARD_LIMIT + frame && ticksRx + frame <= RESERVE + 1 && 1 <= ticks && ticksRx == ticks * 5 / 4
    ensures now + ticksRx <= NONE && now + ticks <= NONE
  {
    assert ticks <= ticksRx;
    assert GUARD_LIMIT + RESERVE == NONE;
  }

  /** A frame at the rate of the registers takes less than the given number of cycles. */
  predicate FrameFits(c: Config, cmd: Byte, ctrl: Byte, ectrl: Byte, cycles: int) {
    c.cyclesPerSecond as real * FrameBits(cmd, ctrl) as real < cycles as real * Bps(c.mode, ctrl, ectrl)
  }

  lemma TicksBelow(c: Config, cmd: Byte, ctrl: Byte, ectrl: Byte, cycles: int)
    ensures CharTicks(c, cmd, ctrl, ectrl) < cycles <==> FrameFits(c, cmd, ctrl, ectrl, cycles)
  {
    hide Bps, FrameBits;
    BpsRange(c.mode, ctrl, ectrl);
    var cps, bps, bits := c.cyclesPerSecond as real, Bps(c.mode, ctrl, ectrl), FrameBits(cmd, ctrl) as real;
    assert CharTicks(c, cmd, ctrl, ectrl) == (cps / bps * bits).Floor;
    assert FrameFits(c, cmd, ctrl, ectrl, cycles) == (cps * bits < cycles as real * bps);
    hide CharTicks, FrameFits;
    Quotient(cps, bps, bits, cycles as real);
    BelowFloor(cps / bps * bits, cycles);
  }

  /** When a reception takes no more than room cycles. */
  lemma ReceptionFits(c: Config, cmd: Byte, ctrl: Byte, ectrl: Byte, room: nat)
    ensures CharTicks(c, cmd, ctrl, ectrl) * 5 / 4 <= room <==> FrameFits(c, cmd, ctrl, ectrl, (4 * room + 3) / 5 + 1)
  {
    hide CharTicks, FrameFits;
    TicksBelow(c, cmd, ctrl, ectrl, (4 * room + 3) / 5 + 1);
    FiveQuarters(CharTicks(c, cmd, ctrl, ectrl), room);
  }

  lemma FiveQuarters(t: int, room: nat)
    ensures t * 5 / 4 <= room <==> t < (4 * room + 3) / 5 + 1
  {
  }

  lemma Quotient(cps: real, bps: real, bits: real, limit: real)
    requires bps > 0.0
    ensures cps / bps * bits < limit <==> cps * bits < limit * bps
  {
    var q := cps / bps;
    assert q * bps == cps;
    assert q * bits * bps == cps * bits;
    if q * bits < limit {
      assert q * bits * bps < limit * bps;
    } else {
      assert q * bits * bps >= limit * bps;
    }
  }

  lemma BelowFloor(x: real, n: int)
    ensures x.Floor < n <==> x < n as real
  {
  }

  /** At 50 bps and more a reception takes at most 0.3 seconds; so the reserve is enough for machines of up to 3495253
      cycles per second. */
  lemma FastReception(c: Config, cmd: Byte, ctrl: Byte, ectrl: Byte)
    requires Bps(c.mode, ctrl, ectrl) >= 50.0
    ensures CharTicks(c, cmd, ctrl, ectrl) * 5 / 4 <= 3 * c.cyclesPerSecond / 10
    ensures c.cyclesPerSecond <= 3495253 ==> CharTicks(c, cmd, ctrl, ectrl) * 5 / 4 <= RESERVE
  {
    hide Bps, FrameBits;
    var cps, bps, bits := c.cyclesPerSecond as real, Bps(c.mode, ctrl, ectrl), FrameBits(cmd, ctrl) as real;
    FastRatio(cps, bps, bits);
    FastFloor(cps / bps * bits, c.cyclesPerSecond);
  }

  lemma FastRatio(cps: real, bps: real, bits: real)
    requires bps >= 50.0 && 7.0 <= bits <= 12.0 && cps >= 0.0
    ensures cps / bps * bits <= cps * 0.24
  {
    var q := cps / bps;
    assert q * bps == cps;
    assert q >= 0.0;
    assert q * 50.0 <= q * bps;
    assert q * bits <= q * 12.0;
  }

  lemma FastFloor(x: real, n: nat)
    requires x <= n as real * 0.24
    ensures x.Floor * 5 / 4 <= 3 * n / 10
  {
    assert x.Floor as real * 25.0 <= (6 * n) as real;
    assert 25 * x.Floor <= 6 * n;
  }

  /** A machine of 985248 cycles per second, CMD = 8 written after a reset at clock 4292600000, and the receive alarm due
      before the guard has moved the clock back: the callback is called forever. */
  lemma LateReception(w: World, up: bool, inputs: seq<Option<Byte>>)
    requires w.config.mode == Normal && w.config.cyclesPerSecond == 985248 && w.now == 4292600000
    ensures var es := [ResetLine, StoreAt(2, 8, up), Pass(1231560)];
            Plays(w, es) && Good(Run(w, es)) && Run(w, es).now == 4293831560 < GUARD_LIMIT
            && !Ends(Run(w, es)) && RxIsDue(RxAlarms(Run(w, es), inputs))
  {
    hide Good, Store, Reset, Harmless, Ends;
    var a := Reset(w);
    var b := Store(a, 2, 8, up);
    var c := b.(now := 4293831560);
    ResetGood(w);
    LateStart(w);
    LateStore(a, up);
    RunCons(w, ResetLine, [StoreAt(2, 8, up)] + ([Pass(1231560)] + []));
    RunCons(a, StoreAt(2, 8, up), [Pass(1231560)] + []);
    RunCons(b, Pass(1231560), []);
    assert [ResetLine, StoreAt(2, 8, up), Pass(1231560)] == [ResetLine] + ([StoreAt(2, 8, up)] + ([Pass(1231560)] + []));
    assert Run(c, []) == c;
    HarmlessOthers(a, b, up);
    GoodStep(a, StoreAt(2, 8, up));
    GoodStep(b, Pass(1231560));
    assert !Ends(c) by { NoEnd(c); }
    RxForever(c, inputs);
  }

  lemma NoEnd(w: World)
    requires RxIsDue(w) && w.now + w.chip.ticksRx > NONE
    ensures !Ends(w)
  {
  }

  lemma RunCons(w: World, e: Event, es: seq<Event>)
    ensures Plays(w, [e] + es) <==> Possible(w, e) && Plays(Step(w, e), es)
    ensures Plays(w, [e] + es) ==> Run(w, [e] + es) == Run(Step(w, e), es)
  {
    hide Step, Possible;
    assert ([e] + es)[1..] == es;
  }

  lemma HarmlessOthers(a: World, b: World, up: bool)
    ensures Harmless(a, StoreAt(2, 8, up)) && Harmless(b, Pass(1231560))
  {
  }

  lemma LateStart(w: World)
    ensures var v := Reset(w);
            v.config == w.config && v.now == w.now && !v.chip.activeRx && v.chip.ctrl == 0 && v.chip.ectrl == 0
            && !v.chip.fd && v.rx.None?
  {
    hide CharTicks, Wrap, Unpack;
  }

  /** CMD = 8 switches RTS on and DTR off. */
  lemma LateStore(a: World, up: bool)
    requires a.config.mode == Normal && a.config.cyclesPerSecond == 985248 && a.now == 4292600000
    requires !a.chip.activeRx && a.chip.ctrl == 0 && a.chip.ectrl == 0 && !a.chip.fd
    ensures var v := Store(a, 2, 8, up);
            v.now == a.now && v.rx == Some(4293831560) && v.chip.ticksRx == 1231560
  {
    TenBps(a.config, a.chip.ectrl);
    hide CharTicks;
  }

  lemma TenBps(c: Config, ectrl: Byte)
    requires c.mode == Normal && c.cyclesPerSecond == 985248
    ensures CharTicks(c, 8, 0, ectrl) == 985248
  {
    assert FrameBits(8, 0) == 10 && Bps(c.mode, 0, ectrl) == 10.0;
  }

  lemma {:induction false} ListSize(list: seq<Alarm>)
    ensures |set i | 0 <= i < |list| :: list[i] as Alarm?| <= |list|
  {
    if list != [] {
      var front := list[..|list| - 1];
      ListSize(front);
      assert (set i | 0 <= i < |list| :: list[i] as Alarm?)
        == (set i | 0 <= i < |front| :: front[i] as Alarm?) + {list[|list| - 1]};
    }
  }

  class Machine {
    const context: AlarmContext
    const acia: Acia
    /** What the other callbacks do when they are called as the n-th one. */
    const react: (Alarm, nat) -> seq<Action>
    /** What the serial device has to offer to the n-th callback. */
    const input: nat -> Option<Byte>
    var turn: nat
    var clk: Clock

    constructor (context: AlarmContext, acia: Acia, react: (Alarm, nat) -> seq<Action>, input: nat -> Option<Byte>,
                 clk: Clock)
      ensures this.context == context && this.acia == acia && this.react == react && this.input == input
      ensures this.clk == clk && turn == 0
    {
      this.context, this.acia, this.react, this.input, this.clk, turn := context, acia, react, input, clk, 0;
    }

    ghost predicate Wired()
      reads acia, context, context.pendingAlarms, context.list
    {
      acia.context == context && acia.Attached() && |context.list| <= MAX_PENDING
      && forall a :: a in context.list ==>
           (a.callback == TransmitCallback <==> a == acia.alarmTx) && (a.callback == ReceiveCallback <==> a == acia.alarmRx)
    }

    /** The actions of one callback meet the contract: own is acted upon, deadlines are later than clk, and the ACIA's
        alarms are left alone. */
    ghost predicate Acceptable(actions: seq<Action>, own: Alarm, clk: Clock)
      reads context`list
    {
      (exists i :: 0 <= i < |actions| && actions[i].alarm == own)
      && forall i :: 0 <= i < |actions| ==>
           actions[i].alarm in context.list && actions[i].alarm != acia.alarmTx && actions[i].alarm != acia.alarmRx
           && (actions[i].SetAt? ==> actions[i].clk > clk)
    }

    ghost predicate Behaved(clk: Clock)
      reads context`list
    {
      forall a, n: nat :: a in context.list && a.callback == OtherCallback ==> Acceptable(react(a, n), a, clk)
    }

    /** Other callbacks touch their own alarm only. */
    ghost predicate OwnOnly()
      reads context`list
    {
      forall a, n: nat, i :: a in context.list && a.callback == OtherCallback && 0 <= i < |react(a, n)| ==>
        react(a, n)[i].alarm == a
    }

    // ---- callbacks ----

    /** Room for the ACIA's alarms is never short: at most MAX_PENDING alarms exist. */
    lemma Attach()
      requires acia.context == context && context.Valid() && |context.list| <= MAX_PENDING
      requires acia.alarmTx in context.list && acia.alarmRx in context.list && acia.alarmTx != acia.alarmRx
      ensures acia.Attached()
    {
      hide AlarmContext.Linked, AlarmContext.Cached;
      context.PendingListed();
      var all: set<Alarm?> := set i | 0 <= i < |context.list| :: context.list[i];
      assert context.Pending().Keys + {acia.alarmTx, acia.alarmRx} <= all;
      Subset(context.Pending().Keys + {acia.alarmTx, acia.alarmRx}, all);
      ListSize(context.list);
    }

    method CallTx()
      requires Wired() && Good(acia.View(clk)) && Ends(acia.View(clk))
      requires acia.alarmTx in Due(context.Pending(), clk)
      modifies acia, context`numPending, context`nextClk, context`nextIdx, context.pendingAlarms, context.list`pendingIdx
      ensures Wired() && Good(acia.View(clk)) && Ends(acia.View(clk))
      ensures Selfish(old(context.Pending()), context.Pending(), acia.alarmTx)
      ensures Settles(old(context.Pending()), context.Pending(), acia.alarmTx, clk)
    {
      hide TxAlarm, Mirror, Latch, History, DtrOn, Ends;
      hide AlarmContext.Linked, AlarmContext.Cached, AlarmContext.Indexed, AlarmContext.Pending;
      ghost var w, m := acia.View(clk), context.Pending();
      ghost var tx, rx := acia.alarmTx, acia.alarmRx;
      TxKeepsEnds(w);
      GoodStep(w, TxDue);
      acia.IntTx(clk);
      PartsSelfish(m, context.Pending(), tx, rx);
      SelfishSettles(m, context.Pending(), tx, clk);
    }

    method CallRx(received: Option<Byte>)
      requires Wired() && Good(acia.View(clk)) && Ends(acia.View(clk))
      requires acia.alarmRx in Due(context.Pending(), clk)
      modifies acia, context`numPending, context`nextClk, context`nextIdx, context.pendingAlarms, context.list`pendingIdx
      ensures Wired() && Good(acia.View(clk)) && Ends(acia.View(clk))
      ensures Selfish(old(context.Pending()), context.Pending(), acia.alarmRx)
      ensures Settles(old(context.Pending()), context.Pending(), acia.alarmRx, clk)
    {
      hide RxAlarm, Mirror, Transmitter, Latch, History, DtrOn, Ends;
      hide AlarmContext.Linked, AlarmContext.Cached, AlarmContext.Indexed, AlarmContext.Pending;
      ghost var w, m := acia.View(clk), context.Pending();
      ghost var tx, rx := acia.alarmTx, acia.alarmRx;
      RxKeepsEnds(w, received);
      GoodStep(w, RxDue(received));
      acia.IntRx(received, clk);
      assert {rx, tx} == {tx, rx};
      PartsSelfish(m, context.Pending(), rx, tx);
      SelfishSettles(m, context.Pending(), rx, clk);
    }

    // ---- clock overflow prevention ----

    /** The scheduler's part, alarm_context_time_warp as the clock guard calls it. */
    method WarpBack(sub: Clock)
      requires Wired() && WarpSafe(context.Entries(), context.nextClk, context.nextIdx, sub, -1)
      modifies context`nextClk, context.pendingAlarms
      ensures context.Valid()
      ensures context.Pending() == map k | k in old(context.Pending()) :: Shifted(old(context.Pending())[k], sub, -1)
    {
      hide AlarmContext.Linked, AlarmContext.Cached, Shifted, ShiftedEntries, WarpSafe, AsMap;
      context.EntriesDistinct();
      ShiftedMap(context.Entries(), sub, -1);
      context.TimeWarp(sub, -1);
    }

    /** clk_guard_prevent_overflow: the clock, the scheduler and the ACIA go back together.  They stay in step if the
        warp is safe for the scheduler. */
    method PreventOverflow(sub: Clock)
      requires Wired() && Good(acia.View(clk)) && Possible(acia.View(clk), ShiftClock(sub))
      requires WarpSafe(context.Entries(), context.nextClk, context.nextIdx, sub, -1)
      modifies this`clk, acia, context`nextClk, context.pendingAlarms
      ensures Wired() && acia.View(clk) == Shift(old(acia.View(clk)), sub) && Good(acia.View(clk))
      ensures context.Pending() == map k | k in old(context.Pending()) :: Shifted(old(context.Pending())[k], sub, -1)
    {
      hide AlarmContext.Linked, AlarmContext.Cached, AlarmContext.Indexed, AlarmContext.Pending, AlarmContext.Entries;
      hide WarpSafe, Good, Find, Possible, Acia.Attached, Acia.View, Shift, Shifted;
      ShiftGood(acia.View(clk), sub);
      acia.Viewed(clk);
      ShiftAll(sub);
      clk := clk - sub;
    }

    /** The scheduler and the ACIA, for a clock that is going to be clk - sub. */
    method ShiftAll(sub: Clock)
      requires Wired() && sub <= clk && WarpSafe(context.Entries(), context.nextClk, context.nextIdx, sub, -1)
      modifies acia, context`nextClk, context.pendingAlarms
      ensures Wired() && acia.View(clk - sub) == Shift(old(acia.View(clk)), sub)
      ensures context.Pending() == map k | k in old(context.Pending()) :: Shifted(old(context.Pending())[k], sub, -1)
    {
      hide AlarmContext.Linked, AlarmContext.Cached, AlarmContext.Indexed, AlarmContext.Pending, AlarmContext.Entries;
      hide Shifted, WarpSafe, Find, Wrap;
      ghost var m := context.Pending();
      ShiftNow(clk, sub);
      WarpBack(sub);
      ShiftParts(m, context.Pending(), acia.alarmTx, sub);
      ShiftParts(m, context.Pending(), acia.alarmRx, sub);
      Attach();
      acia.ClkOverflow(sub);
    }

    /** One action of another callback. */
    method Act(action: Action)
      requires Wired() && action.alarm in context.list && action.alarm != acia.alarmTx && action.alarm != acia.alarmRx
      modifies context`numPending, context`nextClk, context`nextIdx, context.pendingAlarms, context.list`pendingIdx
      ensures Wired() && acia.View(clk) == old(acia.View(clk))
      ensures context.Pending() == match action
                                   case SetAt(a, c) => old(context.Pending())[a := c]
                                   case Clear(a) => old(context.Pending()) - {a}
    {
      hide AlarmContext.Linked, AlarmContext.Cached, AlarmContext.Indexed, AlarmContext.Pending;
      match action {
        case SetAt(a, c) =>
          Fits(a);
          context.Set(a, c);
        case Clear(a) => context.Unset(a);
      }
      Attach();
    }

    /** An alarm that is not pending finds a free entry. */
    lemma Fits(a: Alarm)
      requires Wired() && a in context.list
      ensures a in context.Pending() || |context.Pending()| < MAX_PENDING
    {
      hide AlarmContext.Linked, AlarmContext.Cached;
      context.PendingListed();
      var all: set<Alarm?> := set i | 0 <= i < |context.list| :: context.list[i];
      ListSize(context.list);
      if a !in context.Pending() {
        Subset(context.Pending().Keys + {a}, all);
      }
    }

    method ActAll(actions: seq<Action>, ghost own: Alarm)
      requires Wired() && Acceptable(actions, own, clk)
      modifies context`numPending, context`nextClk, context`nextIdx, context.pendingAlarms, context.list`pendingIdx
      ensures Wired() && acia.View(clk) == old(acia.View(clk))
      ensures Settles(old(context.Pending()), context.Pending(), own, clk)
      ensures (forall i :: 0 <= i < |actions| ==> actions[i].alarm == own) ==>
                Selfish(old(context.Pending()), context.Pending(), own)
    {
      hide AlarmContext.Linked, AlarmContext.Cached, AlarmContext.Indexed, AlarmContext.Pending;
      ghost var m := context.Pending();
      var k := 0;
      while k < |actions|
        invariant 0 <= k <= |actions|
        invariant Wired() && acia.View(clk) == old(acia.View(clk))
        invariant forall b :: b in Due(context.Pending(), clk) ==> b in m && context.Pending()[b] == m[b]
        invariant forall i :: 0 <= i < k ==> actions[i].alarm !in Due(context.Pending(), clk)
        invariant (forall i :: 0 <= i < |actions| ==> actions[i].alarm == own) ==> Selfish(m, context.Pending(), own)
      {
        Act(actions[k]);
        k := k + 1;
      }
    }

    /** The call through the alarm's callback pointer. */
    method Callback(alarm: Alarm)
      requires Wired() && Behaved(clk) && Good(acia.View(clk)) && Ends(acia.View(clk))
      requires alarm in context.list && alarm in Due(context.Pending(), clk)
      modifies this`turn, acia, context`numPending, context`nextClk, context`nextIdx, context.pendingAlarms,
               context.list`pendingIdx
      ensures Wired() && Good(acia.View(clk)) && Ends(acia.View(clk))
      ensures Settles(old(context.Pending()), context.Pending(), alarm, clk)
      ensures OwnOnly() ==> Selfish(old(context.Pending()), context.Pending(), alarm)
    {
      hide AlarmContext.Linked, AlarmContext.Cached, AlarmContext.Indexed, AlarmContext.Pending;
      hide Settles, Selfish, Due, Good, Ends, Acceptable;
      match alarm.callback {
        case TransmitCallback => CallTx();
        case ReceiveCallback => CallRx(input(turn));
        case OtherCallback =>
          assert Acceptable(react(alarm, turn), alarm, clk);
          ActAll(react(alarm, turn), alarm);
      }
      turn := turn + 1;
    }

    // ---- the loop ----

    /** The cached index leads to an alarm that is due, as early as any. */
    lemma NextIsDue()
      requires context.Valid() && context.nextClk <= clk < NONE
      ensures 0 <= context.nextIdx < context.numPending <= context.pendingAlarms.Length
      ensures var a := context.pendingAlarms[context.nextIdx].alarm;
              a in context.list && a in Due(context.Pending(), clk) && context.Pending()[a] == context.nextClk
              && IsEarliest(context.Pending(), context.nextClk)
    {
      hide AlarmContext.Linked;
      context.PendingSummary();
      context.PendingAt(context.pendingAlarms[context.nextIdx].alarm);
    }

    lemma NothingDue()
      requires context.Valid() && clk < context.nextClk
      ensures Due(context.Pending(), clk) == {}
    {
      hide AlarmContext.Linked;
      context.PendingSummary();
    }

    /** alarm_context_dispatch. */
    method Dispatch() returns (ghost call: Call)
      requires Wired() && Behaved(clk) && Good(acia.View(clk)) && Ends(acia.View(clk))
      requires context.nextClk <= clk < NONE
      modifies this`turn, acia, context`numPending, context`nextClk, context`nextIdx, context.pendingAlarms,
               context.list`pendingIdx
      ensures Wired() && Good(acia.View(clk)) && Ends(acia.View(clk))
      ensures call.alarm in Due(old(context.Pending()), clk) && IsEarliest(old(context.Pending()), call.due)
      ensures call.due == old(context.Pending())[call.alarm] && call.offset == clk - call.due
      ensures Settles(old(context.Pending()), context.Pending(), call.alarm, clk)
      ensures OwnOnly() ==> Selfish(old(context.Pending()), context.Pending(), call.alarm)
    {
      hide AlarmContext.Linked, AlarmContext.Cached, AlarmContext.Indexed, AlarmContext.Pending;
      hide Settles, Selfish, Due, Good, Ends, Acceptable, IsEarliest, Machine.Behaved, Machine.OwnOnly, Acia.View;
      NextIsDue();
      var offset := U32(clk - context.nextClk);
      var idx := context.nextIdx;
      var alarm := context.pendingAlarms[idx].alarm;
      call := Call(alarm, context.nextClk, clk - context.nextClk);
      Callback(alarm);
    }

    /** The loop ends, and when it does no alarm is due.  Alarms are called in the order of their clocks, each at most
        once and with the right offset; when every callback minds its own alarm, the calls are exactly the alarms
        that were due.  At clock NONE, which marks an empty queue, the loop's guard would hold forever. */
    method ProcessAlarms() returns (ghost calls: seq<Call>)
      requires Wired() && Behaved(clk) && Good(acia.View(clk)) && Ends(acia.View(clk)) && clk < NONE
      modifies this`turn, acia, context`numPending, context`nextClk, context`nextIdx, context.pendingAlarms,
               context.list`pendingIdx
      ensures Wired() && Good(acia.View(clk)) && Due(context.Pending(), clk) == {}
      ensures Drained(old(context.Pending()), context.Pending(), calls, clk)
      ensures OwnOnly() ==> Covers(old(context.Pending()), context.Pending(), calls, clk)
    {
      hide AlarmContext.Linked, AlarmContext.Cached, AlarmContext.Indexed, AlarmContext.Pending;
      hide Settles, Selfish, Due, Good, Ends, Acceptable, IsEarliest, Machine.Behaved, Machine.OwnOnly, Acia.View;
      hide Drained, Covers;
      ghost var start := context.Pending();
      DrainStart(start, clk);
      calls := [];
      while clk >= context.nextClk
        invariant Wired() && Good(acia.View(clk)) && Ends(acia.View(clk))
        invariant Drained(start, context.Pending(), calls, clk)
        invariant OwnOnly() ==> Covers(start, context.Pending(), calls, clk)
        decreases |Due(context.Pending(), clk)|
      {
        ghost var m := context.Pending();
        ghost var call := Dispatch();
        DrainStep(start, m, context.Pending(), calls, call.alarm, clk);
        Smaller(Due(context.Pending(), clk), Due(m, clk));
        calls := calls + [call];
      }
      NothingDue();
    }
  }

  lemma ShiftGood(w: World, sub: Clock)
    requires Good(w) && Possible(w, ShiftClock(sub))
    ensures sub <= w.now && Good(Shift(w, sub))
  {
    hide Good, Shift;
    GoodStep(w, ShiftClock(sub));
  }

  lemma ShiftNow(clk: Clock, sub: Clock)
    requires sub <= clk
    ensures Wrap(clk - sub) == clk - sub
  {
  }

  lemma ShiftParts(m: Pendings, n: Pendings, a: Alarm, sub: Clock)
    requires n == map k | k in m :: Shifted(m[k], sub, -1)
    ensures Find(n, a) == ShiftAlarm(Find(m, a), sub)
  {
  }

  lemma DrainStart(m: Pendings, clk: Clock)
    ensures Drained(m, m, [], clk) && Covers(m, m, [], clk)
  {
  }

  lemma Smaller(a: set<Alarm?>, b: set<Alarm?>)
    requires a < b
    ensures |a| < |b|
  {
    var x :| x in b && x !in a;
    Subset(a, b - {x});
  }
}
